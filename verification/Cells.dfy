/**
  * Cells and derivations: a write recomputes every transitive dependent against candidate values, in
  * creation order, and installs all of them or nothing.
  */
module Cells {

  import opened Streams
  import opened Sets

  /** A JSON value; `None` stands for a derivation's value before it is attached. */
  type Json(==, !new)
  type Val = Option<Json>

  /** A readable that is no cell or derivation of this host: a reference's state member. */
  type Readable(==, !new)

  datatype Input = Inner(source: nat) | Outer(readable: Readable)

  /** `None` when the function throws. */
  type Compute = seq<Val> -> Option<Val>

  /** `valid`: what the schemas exposing it accept (everything, outside dev mode). */
  datatype Derivation = Derivation(inputs: seq<Input>, fn: Compute, valid: Val -> bool)

  /** The derivations by creation number, and which follow their sources now. */
  datatype Net = Net(derivations: map<nat, Derivation>, attached: set<nat>)

  type Values = map<nat, Val>
  type Outside = map<Readable, Val>

  /** Sources are created before what derives from them. */
  ghost predicate InOrder(n: Net) {
    && n.attached <= n.derivations.Keys
    && forall d, i: nat :: d in n.derivations && Inner(i) in n.derivations[d].inputs ==> i < d
  }

  function Lookup<K, V>(m: map<K, Option<V>>, k: K): Option<V> { if k in m then m[k] else None }

  function Read(values: Values, outside: Outside, i: Input): Val {
    match i
    case Inner(s) => Lookup(values, s)
    case Outer(r) => Lookup(outside, r)
  }

  function ReadAll(values: Values, outside: Outside, inputs: seq<Input>): (r: seq<Val>)
    ensures |r| == |inputs| && forall i :: 0 <= i < |r| ==> r[i] == Read(values, outside, inputs[i])
  {
    seq(|inputs|, i requires 0 <= i < |inputs| => Read(values, outside, inputs[i]))
  }

  /** `d` holds its function of its sources' current values. */
  predicate Right(n: Net, values: Values, outside: Outside, d: nat)
    requires d in n.derivations
  {
    n.derivations[d].fn(ReadAll(values, outside, n.derivations[d].inputs)) == Some(Lookup(values, d))
  }

  /**
    * Every attached derivation is right, except those with a source outside this host that changed and has
    * not been heard of yet (`stale`).
    */
  ghost predicate Consistent(n: Net, values: Values, outside: Outside, stale: set<nat>) {
    forall d :: d in n.attached && d in n.derivations && d !in stale ==> Right(n, values, outside, d)
  }

  // ---------------------------------------------------------------------------------------------
  // What a consistent net means: the derivations as functions of the cells

  /** The value of `s` computed from scratch: leaves (cells, and what is not attached) as they are. */
  ghost function Meaning(n: Net, values: Values, outside: Outside, s: nat): Option<Val>
    requires InOrder(n)
    decreases s, 1
  {
    if s !in n.attached then Some(Lookup(values, s))
    else
      match Meanings(n, values, outside, s, n.derivations[s].inputs)
      case None => None
      case Some(inputs) => n.derivations[s].fn(inputs)
  }

  ghost function Meanings(n: Net, values: Values, outside: Outside, d: nat, inputs: seq<Input>): Option<seq<Val>>
    requires InOrder(n) && forall i: nat :: Inner(i) in inputs ==> i < d
    decreases d, 0, |inputs|
  {
    if inputs == [] then Some([])
    else
      var last := inputs[|inputs| - 1];
      var v := if last.Inner? then Meaning(n, values, outside, last.source) else Some(Read(values, outside, last));
      var before := Meanings(n, values, outside, d, inputs[..|inputs| - 1]);
      if v.None? || before.None? then None else Some(before.value + [v.value])
  }

  /** No glitches: in a consistent net every source holds what computing it from the cells gives. */
  lemma {:induction false} ConsistentIsMeaning(n: Net, values: Values, outside: Outside, s: nat)
    requires InOrder(n) && Consistent(n, values, outside, {})
    ensures Meaning(n, values, outside, s) == Some(Lookup(values, s))
    decreases s, 1
  {
    if s in n.attached {
      MeaningsAreReads(n, values, outside, s, n.derivations[s].inputs);
      assert Right(n, values, outside, s);
    }
  }

  lemma {:induction false} MeaningsAreReads(n: Net, values: Values, outside: Outside, d: nat, inputs: seq<Input>)
    requires InOrder(n) && Consistent(n, values, outside, {})
    requires forall i: nat :: Inner(i) in inputs ==> i < d
    ensures Meanings(n, values, outside, d, inputs) == Some(ReadAll(values, outside, inputs))
    decreases d, 0, |inputs|
  {
    if inputs != [] {
      var last := inputs[|inputs| - 1];
      var init := inputs[..|inputs| - 1];
      assert last in inputs && inputs == init + [last];
      MeaningsAreReads(n, values, outside, d, init);
      if last.Inner? { ConsistentIsMeaning(n, values, outside, last.source); }
      assert ReadAll(values, outside, inputs) == ReadAll(values, outside, init) + [Read(values, outside, last)];
    } else {
      assert ReadAll(values, outside, inputs) == [];
    }
  }

  // ---------------------------------------------------------------------------------------------
  // Finding what depends on a source

  function Dependents(n: Net, s: nat): set<nat> {
    set d | d in n.attached && d in n.derivations && Inner(s) in n.derivations[d].inputs
  }

  /** What depends on `s`, directly or through other derivations. */
  ghost predicate Affected(n: Net, s: nat, d: nat)
    requires InOrder(n)
    decreases d
  {
    d in n.attached && exists i: nat :: Inner(i) in n.derivations[d].inputs && (i == s || Affected(n, s, i))
  }

  lemma AffectedThrough(n: Net, s: nat, via: nat, d: nat)
    requires InOrder(n) && d in Dependents(n, via) && (via == s || Affected(n, s, via))
    ensures Affected(n, s, d)
  {
  }

  /** The `visit` of `computeDependents`: adds what depends on `source` to `pending`. */
  method Visit(n: Net, changed: nat, source: nat, pending: set<nat>) returns (all: set<nat>)
    requires InOrder(n) && pending <= n.attached
    requires source == changed || Affected(n, changed, source)
    ensures pending <= all <= n.attached && Dependents(n, source) <= all
    ensures forall d :: d in all - pending ==> Affected(n, changed, d) && Dependents(n, d) <= all
    decreases |n.attached - pending|
  {
    hide Affected;
    all := pending;
    var left := Dependents(n, source);
    while left != {}
      invariant pending <= all <= n.attached && left <= Dependents(n, source) <= all + left
      invariant forall d :: d in all - pending ==> Affected(n, changed, d) && Dependents(n, d) <= all
      decreases |left|
    {
      var derived: nat :| derived in left;
      left := left - {derived};
      if derived in all {
        continue;
      }
      AffectedThrough(n, changed, source, derived);
      SmallerWithout(n.attached, pending, all, derived);
      var grown := Visit(n, changed, derived, all + {derived});
      all := grown;
    }
  }

  lemma SmallerWithout(u: set<nat>, a: set<nat>, b: set<nat>, x: nat)
    requires a <= b && x in u && x !in b
    ensures |u - (b + {x})| < |u - a|
  {
    var rest := u - a;
    assert u - (b + {x}) <= rest - {x};
    SubsetSize(u - (b + {x}), rest - {x});
  }

  /** Sorted by creation number. */
  method InCreationOrder(pending: set<nat>) returns (order: seq<nat>)
    ensures forall d :: d in order <==> d in pending
    ensures forall i, j :: 0 <= i < j < |order| ==> order[i] < order[j]
  {
    order := [];
    var left := pending;
    while left != {}
      invariant left <= pending
      invariant forall d :: d in order <==> d in pending && d !in left
      invariant forall i, j :: 0 <= i < j < |order| ==> order[i] < order[j]
      invariant forall d, e :: d in order && e in left ==> d < e
      decreases |left|
    {
      var least := Least(left);
      left := left - {least};
      assert forall e :: e in left ==> least < e;
      forall i | 0 <= i < |order| ensures order[i] < least {
        assert order[i] in order;
      }
      assert forall d :: d in order + [least] <==> d in order || d == least;
      order := order + [least];
    }
  }

  method Least(s: set<nat>) returns (least: nat)
    requires s != {}
    ensures least in s && forall e :: e in s ==> least <= e
  {
    least :| least in s;
    var left := s - {least};
    while left != {}
      invariant left <= s && least in s
      invariant forall e :: e in s ==> e in left || least <= e
      decreases |left|
    {
      var e: nat :| e in left;
      left := left - {e};
      if e < least {
        least := e;
      }
    }
  }

  // ---------------------------------------------------------------------------------------------
  // Recomputing

  /**
    * `next` gives `changed` the value `v`, moves nothing outside `pending`, and makes every derivation of
    * `pending` right and acceptable.
    */
  ghost predicate Solves(n: Net, values: Values, outside: Outside, changed: nat, v: Val, validate: bool,
                         pending: set<nat>, next: Values)
  {
    && Lookup(next, changed) == v
    && (forall s: nat :: s != changed && s !in pending ==> Lookup(next, s) == Lookup(values, s))
    && forall d :: d in pending && d in n.derivations ==>
         Right(n, next, outside, d) && (validate ==> n.derivations[d].valid(Lookup(next, d)))
  }

  /** `overlay` first, then the values as they are. */
  function Over(values: Values, overlay: Values): Values { values + overlay }

  /** Any solution agrees with what was computed so far. */
  ghost predicate Forced(n: Net, values: Values, outside: Outside, changed: nat, v: Val, validate: bool,
                         pending: set<nat>, done: set<nat>, overlay: Values)
  {
    forall next, s: nat {:trigger Solves(n, values, outside, changed, v, validate, pending, next), Lookup(next, s)} ::
      Solves(n, values, outside, changed, v, validate, pending, next) && s in done ==>
        Lookup(next, s) == Lookup(overlay, s)
  }

  /** The recomputation so far: the derivations of `done` are right in the overlaid values, and forced. */
  ghost predicate Computed(n: Net, values: Values, outside: Outside, changed: nat, v: Val, validate: bool,
                           pending: set<nat>, done: set<nat>, overlay: Values)
  {
    && Solves(n, values, outside, changed, v, validate, done, Over(values, overlay))
    && overlay.Keys == done + {changed}
    && Forced(n, values, outside, changed, v, validate, pending, done, overlay)
  }

  /** Inputs of `d` read the same where two value maps agree on them. */
  lemma SameInputs(n: Net, a: Values, b: Values, outside: Outside, d: nat)
    requires d in n.derivations
    requires forall s: nat :: Inner(s) in n.derivations[d].inputs ==> Lookup(a, s) == Lookup(b, s)
    ensures ReadAll(a, outside, n.derivations[d].inputs) == ReadAll(b, outside, n.derivations[d].inputs)
  {
    var inputs := n.derivations[d].inputs;
    forall i | 0 <= i < |inputs| ensures Read(a, outside, inputs[i]) == Read(b, outside, inputs[i]) {
      assert inputs[i] in inputs;
    }
  }

  /** What the next derivation in order reads is final. */
  lemma NextInputsFinal(n: Net, values: Values, outside: Outside, changed: nat, v: Val, validate: bool,
                        pending: set<nat>, done: set<nat>, overlay: Values, d: nat, next: Values)
    requires InOrder(n) && pending <= n.attached
    requires Computed(n, values, outside, changed, v, validate, pending, done, overlay)
    requires d in pending && done <= pending && (forall e :: e in pending && e < d ==> e in done)
    requires Solves(n, values, outside, changed, v, validate, pending, next)
    ensures ReadAll(next, outside, n.derivations[d].inputs) ==
      ReadAll(Over(values, overlay), outside, n.derivations[d].inputs)
  {
    forall s: nat | Inner(s) in n.derivations[d].inputs
      ensures Lookup(next, s) == Lookup(Over(values, overlay), s)
    {
      if s != changed && s in pending { assert s in done; }
    }
    SameInputs(n, next, Over(values, overlay), outside, d);
  }

  lemma SolvesStep(n: Net, values: Values, outside: Outside, changed: nat, v: Val, validate: bool,
                   pending: set<nat>, done: set<nat>, overlay: Values, d: nat, value: Val)
    requires InOrder(n) && pending <= n.attached && changed !in pending
    requires Solves(n, values, outside, changed, v, validate, done, Over(values, overlay))
    requires overlay.Keys == done + {changed}
    requires d in pending && d !in done && done <= pending
    requires forall e :: e in pending ==> (e < d <==> e in done)
    requires n.derivations[d].fn(ReadAll(Over(values, overlay), outside, n.derivations[d].inputs)) == Some(value)
    requires validate ==> n.derivations[d].valid(value)
    ensures Solves(n, values, outside, changed, v, validate, done + {d}, Over(values, overlay[d := value]))
  {
    var before := Over(values, overlay);
    var after := Over(values, overlay[d := value]);
    assert forall s: nat :: s != d ==> Lookup(after, s) == Lookup(before, s);
    assert Lookup(after, d) == value;
    hide Over;
    SolvesNext(n, values, outside, changed, v, validate, done, before, after, d);
  }

  lemma SolvesNext(n: Net, values: Values, outside: Outside, changed: nat, v: Val, validate: bool,
                   done: set<nat>, before: Values, after: Values, d: nat)
    requires InOrder(n) && d in n.derivations && d != changed && (forall e :: e in done ==> e < d)
    requires Solves(n, values, outside, changed, v, validate, done, before)
    requires forall s: nat :: s != d ==> Lookup(after, s) == Lookup(before, s)
    requires n.derivations[d].fn(ReadAll(before, outside, n.derivations[d].inputs)) == Some(Lookup(after, d))
    requires validate ==> n.derivations[d].valid(Lookup(after, d))
    ensures Solves(n, values, outside, changed, v, validate, done + {d}, after)
  {
    hide ReadAll;
    forall e | e in done + {d} && e in n.derivations
      ensures Right(n, after, outside, e) && (validate ==> n.derivations[e].valid(Lookup(after, e)))
    {
      RightStays(n, before, after, outside, d, e);
    }
  }

  /** A new value of `d` leaves what was created before it as it was, and `d` itself reads only that. */
  lemma RightStays(n: Net, before: Values, after: Values, outside: Outside, d: nat, e: nat)
    requires InOrder(n) && e in n.derivations && e <= d
    requires forall s: nat :: s != d ==> Lookup(after, s) == Lookup(before, s)
    ensures ReadAll(after, outside, n.derivations[e].inputs) == ReadAll(before, outside, n.derivations[e].inputs)
    ensures e != d && Right(n, before, outside, e) ==> Right(n, after, outside, e)
  {
    SameInputs(n, before, after, outside, e);
  }

  lemma ForcedStep(n: Net, values: Values, outside: Outside, changed: nat, v: Val, validate: bool,
                   pending: set<nat>, done: set<nat>, overlay: Values, d: nat, value: Val)
    requires InOrder(n) && pending <= n.attached && changed !in pending
    requires Computed(n, values, outside, changed, v, validate, pending, done, overlay)
    requires d in pending && d !in done && done <= pending
    requires forall e :: e in pending ==> (e < d <==> e in done)
    requires n.derivations[d].fn(ReadAll(Over(values, overlay), outside, n.derivations[d].inputs)) == Some(value)
    ensures Forced(n, values, outside, changed, v, validate, pending, done + {d}, overlay[d := value])
  {
    hide Over, ReadAll;
    forall next, s: nat | Solves(n, values, outside, changed, v, validate, pending, next) && s in done + {d}
      ensures Lookup(next, s) == Lookup(overlay[d := value], s)
    {
      if s == d {
        NextInputsFinal(n, values, outside, changed, v, validate, pending, done, overlay, d, next);
        assert Right(n, next, outside, d);
      }
    }
  }

  lemma NoSolution(n: Net, values: Values, outside: Outside, changed: nat, v: Val, validate: bool,
                   pending: set<nat>, done: set<nat>, overlay: Values, d: nat, next: Values)
    requires InOrder(n) && pending <= n.attached
    requires Computed(n, values, outside, changed, v, validate, pending, done, overlay)
    requires d in pending && done <= pending && (forall e :: e in pending && e < d ==> e in done)
    requires var r := n.derivations[d].fn(ReadAll(Over(values, overlay), outside, n.derivations[d].inputs));
      r.None? || (validate && !n.derivations[d].valid(r.value))
    ensures !Solves(n, values, outside, changed, v, validate, pending, next)
  {
    hide Over, ReadAll;
    if Solves(n, values, outside, changed, v, validate, pending, next) {
      NextInputsFinal(n, values, outside, changed, v, validate, pending, done, overlay, d, next);
    }
  }

  datatype Outcome = Thrown | Candidates(values: Values)

  function Elements(order: seq<nat>): set<nat> { set d | d in order }

  /** `order` is everything affected by `changed` and still following its sources, in creation order. */
  ghost predicate AffectedInOrder(n: Net, changed: nat, order: seq<nat>)
    requires InOrder(n)
  {
    && (forall i, j :: 0 <= i < j < |order| ==> order[i] < order[j])
    && Elements(order) <= n.attached && changed !in order && Dependents(n, changed) <= Elements(order)
    && forall d :: d in order ==> Affected(n, changed, d) && Dependents(n, d) <= Elements(order)
  }

  /**
    * `computeDependents`: candidate values for everything that depends on `changed`, or an error when no
    * acceptable values exist.
    */
  method ComputeDependents(n: Net, values: Values, outside: Outside, changed: nat, v: Val, validate: bool)
    returns (outcome: Outcome, order: seq<nat>)
    requires InOrder(n)
    ensures AffectedInOrder(n, changed, order)
    ensures outcome.Candidates? ==>
      outcome.values.Keys == Elements(order) + {changed} && outcome.values[changed] == v
      && Solves(n, values, outside, changed, v, validate, Elements(order), Over(values, outcome.values))
    ensures outcome.Thrown? ==> forall next :: !Solves(n, values, outside, changed, v, validate, Elements(order), next)
  {
    hide Over, Solves, Forced, ReadAll;
    var all := Visit(n, changed, changed, {});
    forall d | d in all ensures d > changed { AffectedIsLater(n, changed, d); }
    order := InCreationOrder(all);
    assert Elements(order) == all;
    var overlay: Values := map[changed := v];
    ghost var done: set<nat> := {};
    NothingComputed(n, values, outside, changed, v, validate, all);
    var k := 0;
    while k < |order|
      invariant 0 <= k <= |order| && done == set i | 0 <= i < k :: order[i]
      invariant Computed(n, values, outside, changed, v, validate, all, done, overlay) && overlay[changed] == v
    {
      var d := order[k];
      assert d in order;
      OrderSplits(order, all, k);
      var next := n.derivations[d].fn(ReadAll(Over(values, overlay), outside, n.derivations[d].inputs));
      if next.None? || (validate && !n.derivations[d].valid(next.value)) {
        forall solution ensures !Solves(n, values, outside, changed, v, validate, all, solution) {
          NoSolution(n, values, outside, changed, v, validate, all, done, overlay, d, solution);
        }
        return Thrown, order;
      }
      SolvesStep(n, values, outside, changed, v, validate, all, done, overlay, d, next.value);
      ForcedStep(n, values, outside, changed, v, validate, all, done, overlay, d, next.value);
      overlay := overlay[d := next.value];
      done := done + {d};
      k := k + 1;
    }
    assert done == all;
    return Candidates(overlay), order;
  }

  lemma NothingComputed(n: Net, values: Values, outside: Outside, changed: nat, v: Val, validate: bool,
      pending: set<nat>)
    ensures Computed(n, values, outside, changed, v, validate, pending, {}, map[changed := v])
  {
  }

  lemma {:induction false} AffectedIsLater(n: Net, s: nat, d: nat)
    requires InOrder(n) && Affected(n, s, d)
    ensures s < d
    decreases d
  {
    var i: nat :| Inner(i) in n.derivations[d].inputs && (i == s || Affected(n, s, i));
    if i != s { AffectedIsLater(n, s, i); }
  }

  lemma OrderSplits(order: seq<nat>, pending: set<nat>, k: nat)
    requires k < |order| && (forall d :: d in order <==> d in pending)
    requires forall i, j :: 0 <= i < j < |order| ==> order[i] < order[j]
    ensures forall e :: e in pending ==> (e < order[k] <==> e in set i | 0 <= i < k :: order[i])
  {
    forall e | e in pending ensures e < order[k] <==> e in set i | 0 <= i < k :: order[i] {
      var j :| 0 <= j < |order| && order[j] == e;
    }
  }

  /** Installing a solution leaves every derivation right, but those still waiting to hear of an outside change. */
  lemma SolutionIsConsistent(n: Net, values: Values, outside: Outside, stale: set<nat>,
                             changed: nat, v: Val, validate: bool, order: seq<nat>, next: Values)
    requires InOrder(n) && Consistent(n, values, outside, stale) && AffectedInOrder(n, changed, order)
    requires Solves(n, values, outside, changed, v, validate, Elements(order), next)
    requires changed in n.attached ==>
      n.derivations[changed].fn(ReadAll(values, outside, n.derivations[changed].inputs)) == Some(v)
    ensures Consistent(n, next, outside, stale - Elements(order) - {changed})
    ensures forall s: nat :: s != changed && !Affected(n, changed, s) ==> Lookup(next, s) == Lookup(values, s)
  {
    var pending := Elements(order);
    forall d | d in n.attached && d in n.derivations && d !in stale - pending - {changed}
      ensures Right(n, next, outside, d)
    {
      if d !in pending {
        forall s: nat | Inner(s) in n.derivations[d].inputs ensures Lookup(next, s) == Lookup(values, s) {
          assert d in Dependents(n, s);
          if d == changed && s in pending { AffectedIsLater(n, changed, s); }
        }
        SameInputs(n, values, next, outside, d);
        if d != changed { assert Right(n, values, outside, d); }
      }
    }
  }

  lemma SolutionAt(n: Net, values: Values, outside: Outside, changed: nat, v: Val, validate: bool, order: seq<nat>,
      next: Values)
    requires Solves(n, values, outside, changed, v, validate, Elements(order), next)
    ensures Lookup(next, changed) == v
  {
  }

  /** `install` emits an event for a value that changed, and for one that is undefined. */
  predicate Emits(before: Val, after: Val) { before != after || after.None? }

  /** The events `install` emits for `order`. */
  function Installed(order: seq<nat>, before: Values, after: Values): seq<(nat, Val)> {
    if order == [] then []
    else
      var d := order[|order| - 1];
      Installed(order[..|order| - 1], before, after)
      + if Emits(Lookup(before, d), Lookup(after, d)) then [(d, Lookup(after, d))] else []
  }

  /** The values once `order` is installed from `next`. */
  function Adopted(values: Values, next: Values, order: seq<nat>): Values
    requires forall d :: d in order ==> d in next
  {
    if order == [] then values
    else
      var d := order[|order| - 1];
      assert d in order;
      Adopted(values, next, order[..|order| - 1])[d := next[d]]
  }

  lemma {:induction false} AdoptedAt(values: Values, next: Values, order: seq<nat>, s: nat)
    requires forall d :: d in order ==> d in next
    ensures Adopted(values, next, order).Keys == values.Keys + Elements(order)
    ensures Lookup(Adopted(values, next, order), s) == if s in order then next[s] else Lookup(values, s)
  {
    if order != [] {
      var init := order[..|order| - 1];
      assert order == init + [order[|order| - 1]];
      AdoptedAt(values, next, init, s);
    }
  }

  lemma AdoptedIsOver(values: Values, next: Values, order: seq<nat>, changed: nat)
    requires next.Keys == Elements(order) + {changed} && changed !in order
    ensures Adopted(values[changed := next[changed]], next, order) == Over(values, next)
  {
    var all := Adopted(values[changed := next[changed]], next, order);
    AdoptedAt(values[changed := next[changed]], next, order, changed);
    forall s: nat | s in all ensures all[s] == Over(values, next)[s] {
      AdoptedAt(values[changed := next[changed]], next, order, s);
    }
  }

  lemma AffectedFacts(n: Net, order: seq<nat>, changed: nat, next: Values)
    requires InOrder(n) && AffectedInOrder(n, changed, order) && next.Keys == Elements(order) + {changed}
    ensures changed !in order && forall d :: d in order ==> d in next
    ensures forall i, j :: 0 <= i < j < |order| ==> order[i] < order[j]
  {
  }

  lemma InstallStart(base: Values, before: Values, next: Values, order: seq<nat>)
    ensures Adopted(base, next, order[..0]) == base && Installed(order[..0], before, Over(before, next)) == []
  {
  }

  lemma InstallStep(base: Values, before: Values, next: Values, order: seq<nat>, changed: nat, k: nat)
    requires k < |order| && changed in next && changed !in order && base == before[changed := next[changed]]
    requires forall d :: d in order ==> d in next
    requires forall i, j :: 0 <= i < j < |order| ==> order[i] < order[j]
    ensures order[k] in next && forall d :: d in order[..k + 1] ==> d in next
    ensures Adopted(base, next, order[..k + 1]) == Adopted(base, next, order[..k])[order[k] := next[order[k]]]
    ensures Lookup(Adopted(base, next, order[..k]), order[k]) == Lookup(before, order[k])
    ensures Installed(order[..k + 1], before, Over(before, next)) == Installed(order[..k], before, Over(before, next))
      + if Emits(Lookup(before, order[k]), next[order[k]]) then [(order[k], next[order[k]])] else []
  {
    var d := order[k];
    assert d in order && d !in order[..k];
    assert order[..k + 1] == order[..k] + [d] && order[..k + 1][..k] == order[..k];
    AdoptedAt(base, next, order[..k], d);
  }

  /** A source nothing reads yet may take any value. */
  lemma UnusedKeepsConsistent(n: Net, values: Values, outside: Outside, stale: set<nat>, s: nat, v: Val)
    requires InOrder(n) && Consistent(n, values, outside, stale) && forall d :: d in n.derivations ==> d < s
    ensures Consistent(n, values[s := v], outside, stale)
  {
    forall d | d in n.attached && d in n.derivations && d !in stale ensures Right(n, values[s := v], outside, d) {
      assert Right(n, values, outside, d);
      SameInputs(n, values, values[s := v], outside, d);
    }
  }

  // ---------------------------------------------------------------------------------------------
  // The sources of a host, updated in place

  class Sources {
    var net: Net
    var values: Values
    var outside: Outside
    /** What each cell's schemas accept. */
    var accepts: map<nat, Val -> bool>
    /** How many sources were created. */
    var created: nat
    /** Events queued for subscribers, in order. */
    var events: seq<(nat, Val)>
    /** Attached derivations that have yet to hear of a change outside. */
    ghost var stale: set<nat>

    constructor ()
      ensures Valid()
    {
      net, values, outside, accepts, created, events, stale := Net(map[], {}), map[], map[], map[], 0, [], {};
    }

    ghost predicate Valid()
      reads this
    {
      && InOrder(net) && Consistent(net, values, outside, stale)
      && (forall d :: d in net.derivations ==> d < created)
      && (forall c :: c in accepts ==> c < created && c !in net.derivations)
    }

    method NewCell(initial: Val, accept: Val -> bool) returns (ok: bool, cell: nat)
      requires Valid()
      modifies this`values, this`accepts, this`created
      ensures Valid()
      ensures ok == accept(initial)
      ensures ok ==>
        cell !in old(accepts) && accepts == old(accepts)[cell := accept] && values == old(values)[cell := initial]
      ensures !ok ==> accepts == old(accepts) && values == old(values)
    {
      cell := created;
      created := created + 1;
      if !accept(initial) {
        return false, cell;
      }
      ghost var before := values;
      values := values[cell := initial];
      accepts := accepts[cell := accept];
      UnusedKeepsConsistent(net, before, outside, stale, cell, initial);
      return true, cell;
    }

    /** A derivation over sources that exist: it follows them once attached. */
    method NewDerivation(derivation: Derivation) returns (d: nat)
      requires Valid() && forall i: nat :: Inner(i) in derivation.inputs ==> i < created
      modifies this`net, this`created
      ensures Valid() && d !in old(net).derivations
      ensures net == old(net).(derivations := old(net).derivations[d := derivation])
    {
      d := created;
      created := created + 1;
      net := net.(derivations := net.derivations[d := derivation]);
    }

    /**
      * `Cell.#publish`: cell, derivations and queue move together or not at all; it throws
      * only if no acceptable values exist. `same`: the tracker found no ops, so the value is equal.
      */
    method Publish(cell: nat, v: Val, same: bool, validate: bool) returns (ok: bool, order: seq<nat>)
      requires Valid() && cell !in net.derivations && cell in accepts
      requires same ==> v == Lookup(values, cell)
      modifies this`values, this`events, this`stale
      ensures Valid()
      ensures !ok ==> values == old(values) && events == old(events) && stale == old(stale)
      ensures !ok ==>
        || (validate && !accepts[cell](v))
        || (forall next :: !Solves(net, old(values), outside, cell, v, validate, Elements(order), next))
      ensures ok ==> Lookup(values, cell) == v && stale <= old(stale)
      ensures ok ==>
        forall s: nat :: s != cell && !Affected(net, cell, s) ==> Lookup(values, s) == Lookup(old(values), s)
      ensures ok && !same ==> AffectedInOrder(net, cell, order)
      ensures ok && !same ==> Solves(net, old(values), outside, cell, v, validate, Elements(order), values)
      ensures ok && !same ==> events == old(events) + [(cell, v)] + Installed(order, old(values), values)
    {
      hide Solves, Over, Consistent, Affected, AffectedInOrder, Installed;
      order := [];
      if same {
        return true, order;
      }
      if validate && !accepts[cell](v) {
        return false, order;
      }
      var outcome, affected := ComputeDependents(net, values, outside, cell, v, validate);
      order := affected;
      if outcome.Thrown? {
        return false, order;
      }
      SolutionIsConsistent(net, values, outside, stale, cell, v, validate, order, Over(values, outcome.values));
      SolutionAt(net, values, outside, cell, v, validate, order, Over(values, outcome.values));
      stale := stale - Elements(order) - {cell};
      events := events + [(cell, v)];
      Install(order, outcome.values, cell, values);
      return true, order;
    }

    /** The changed source's revision, then each derivation's, in creation order. */
    method Install(order: seq<nat>, next: Values, changed: nat, ghost before: Values)
      requires InOrder(net) && changed in next && AffectedInOrder(net, changed, order)
      requires next.Keys == Elements(order) + {changed} && before == values
      modifies this`values, this`events
      ensures values == Over(before, next)
      ensures events == old(events) + Installed(order, before, values)
    {
      hide *;
      values := values[changed := next[changed]];
      ghost var base := values;
      AffectedFacts(net, order, changed, next);
      AdoptedIsOver(before, next, order, changed);
      InstallStart(base, before, next, order);
      var k := 0;
      while k < |order|
        invariant 0 <= k <= |order| && forall d :: d in order[..k] ==> d in next
        invariant values == Adopted(base, next, order[..k])
        invariant events == old(events) + Installed(order[..k], before, Over(before, next))
      {
        var d := order[k];
        InstallStep(base, before, next, order, changed, k);
        if Emits(Lookup(values, d), next[d]) {
          events := events + [(d, next[d])];
        }
        values := values[d := next[d]];
        k := k + 1;
      }
      assert order[..k] == order;
    }

    /** `Derived.refresh`: a source outside published. An error is reported and changes nothing. */
    method Refresh(d: nat) returns (ok: bool, order: seq<nat>)
      requires Valid() && d in net.attached
      modifies this`values, this`events, this`stale
      ensures Valid()
      ensures !ok ==> values == old(values) && events == old(events) && stale == old(stale)
      ensures !ok ==>
        var next := net.derivations[d].fn(ReadAll(old(values), outside, net.derivations[d].inputs));
        next.None? ||
        (&& AffectedInOrder(net, d, order)
         && forall adopted :: !Solves(net, old(values), outside, d, next.value, true, Elements(order), adopted))
      ensures ok ==>
        var next := net.derivations[d].fn(ReadAll(old(values), outside, net.derivations[d].inputs));
        && next.Some? && AffectedInOrder(net, d, order)
        && Solves(net, old(values), outside, d, next.value, true, Elements(order), values)
        && Lookup(values, d) == next.value
        && events == old(events) + (if Emits(Lookup(old(values), d), next.value) then [(d, next.value)] else [])
             + Installed(order, old(values), values)
      ensures ok ==> d !in stale && stale <= old(stale)
      ensures ok ==> forall s: nat :: s != d && !Affected(net, d, s) ==> Lookup(values, s) == Lookup(old(values), s)
    {
      hide Solves, Over, Consistent, Affected, AffectedInOrder, Installed, ReadAll;
      order := [];
      var next := net.derivations[d].fn(ReadAll(values, outside, net.derivations[d].inputs));
      if next.None? {
        return false, order;
      }
      var outcome, affected := ComputeDependents(net, values, outside, d, next.value, true);
      order := affected;
      if outcome.Thrown? {
        return false, order;
      }
      SolutionIsConsistent(net, values, outside, stale, d, next.value, true, order, Over(values, outcome.values));
      SolutionAt(net, values, outside, d, next.value, true, order, Over(values, outcome.values));
      stale := stale - Elements(order) - {d};
      if Emits(Lookup(values, d), next.value) {
        events := events + [(d, next.value)];
      }
      Install(order, outcome.values, d, values);
      return true, order;
    }

    /**
      * `Derived.attach`: from here on the net is consistent with this derivation too. What read it
      * before (as undefined) is not told; a precomputed value is as good as the dry run it comes from.
      */
    method Attach(d: nat, precomputed: Option<Val>) returns (ok: bool)
      requires Valid() && d in net.derivations && d !in net.attached
      modifies this`values, this`net, this`stale
      ensures Valid()
      ensures !ok ==> values == old(values) && net == old(net) && stale == old(stale)
      ensures ok ==> net == old(net).(attached := old(net).attached + {d})
      ensures ok ==> forall s: nat :: s != d ==> Lookup(values, s) == Lookup(old(values), s)
      ensures var computed := net.derivations[d].fn(ReadAll(old(values), outside, net.derivations[d].inputs));
        && (ok <==> precomputed.Some? || computed.Some?)
        && (ok ==>
              && Lookup(values, d) == (if precomputed.Some? then precomputed.value else computed.value)
              && stale == old(stale) + Dependents(old(net), d)
                   + (if computed == Some(Lookup(values, d)) then {} else {d}))
    {
      var inputs := net.derivations[d].inputs;
      var first := precomputed;
      if first.None? {
        first := net.derivations[d].fn(ReadAll(values, outside, inputs));
        if first.None? {
          return false;
        }
      }
      ghost var before, was := values, stale;
      ghost var right := net.derivations[d].fn(ReadAll(values, outside, inputs)) == first;
      values := values[d := first.value];
      stale := stale + Dependents(net, d) + if right then {} else {d};
      forall e | e in net.attached + {d} && e in net.derivations && e !in stale
        ensures Right(net, values, outside, e)
      {
        AttachedRight(net, before, outside, d, first.value, e);
        if e != d { assert Right(net, before, outside, e); }
      }
      net := net.(attached := net.attached + {d});
      return true;
    }

    lemma AttachedRight(n: Net, before: Values, outside: Outside, d: nat, v: Val, e: nat)
      requires InOrder(n) && d in n.derivations && e in n.derivations
      requires e == d || (e in n.attached && e !in Dependents(n, d))
      ensures ReadAll(before[d := v], outside, n.derivations[e].inputs) ==
        ReadAll(before, outside, n.derivations[e].inputs)
    {
      forall s: nat | Inner(s) in n.derivations[e].inputs ensures Lookup(before[d := v], s) == Lookup(before, s) {
      }
      SameInputs(n, before[d := v], before, outside, e);
    }

    method Detach(d: nat)
      requires Valid()
      modifies this`net
      ensures Valid() && net == old(net).(attached := old(net).attached - {d})
    {
      net := net.(attached := net.attached - {d});
    }

    /** A state member of a reference changed: what reads it directly will hear of it and refresh. */
    method ChangeOutside(r: Readable, v: Val)
      requires Valid()
      modifies this`outside, this`stale
      ensures Valid() && outside == old(outside)[r := v]
      ensures stale == old(stale) + set d | d in net.attached && Outer(r) in net.derivations[d].inputs
    {
      ghost var before := outside;
      stale := stale + set d | d in net.attached && Outer(r) in net.derivations[d].inputs;
      outside := outside[r := v];
      forall d | d in net.attached && d in net.derivations && d !in stale ensures Right(net, values, outside, d) {
        assert Right(net, values, before, d);
        var inputs := net.derivations[d].inputs;
        assert ReadAll(values, outside, inputs) == ReadAll(values, before, inputs) by {
          forall i | 0 <= i < |inputs| ensures Read(values, outside, inputs[i]) == Read(values, before, inputs[i]) {
            assert inputs[i] in inputs;
          }
        }
      }
    }
  }
}

/**
  * Copying a JavaScript value into a strict-JSON tree, and checking that it could be: recursion over an
  * object graph with the objects being visited in a shared set of ancestors.
  */
module JsonCopy {

  import opened Streams

  type Ref = nat

  datatype Value =
    | Null
    | Bool(b: bool)
    | Str(s: string)
    | Num(finite: bool, id: nat)
    | Undefined
    | NotJson
    | Object(ref: Ref)

  datatype Key = Name(name: string) | Symbol(id: nat)

  /** `data`: not an accessor. */
  datatype Property = Property(enumerable: bool, data: bool, value: Value)

  datatype Prototype = Plain | NoPrototype | Foreign

  /** An array's indices below its length (holes are `None`), and its other keys but `length`. */
  datatype Node =
    | ArrayNode(plain: bool, slots: seq<Option<Property>>, extra: seq<Key>)
    | ObjectNode(prototype: Prototype, own: seq<(Key, Property)>)

  type Heap = map<Ref, Node>

  /** A tree: nothing in it is shared. */
  datatype Json =
    | JNull
    | JBool(b: bool)
    | JStr(s: string)
    | JNum(id: nat)
    | JArray(items: seq<Json>)
    | JObject(bare: bool, members: seq<(string, Json)>)

  function Present(slots: seq<Option<Property>>): nat {
    if slots == [] then 0 else Present(slots[..|slots| - 1]) + if slots[|slots| - 1].Some? then 1 else 0
  }

  predicate Plainly(p: Property) { p.enumerable && p.data }

  // ---------------------------------------------------------------------------------------------
  // The independent form: a tree that mirrors a value

  /** `j` is `v` unfolded, objects opened as often as they are met; with `omit`, without undefined properties. */
  predicate Mirrors(h: Heap, v: Value, j: Json, omit: bool)
    decreases j, 1
  {
    match v
    case Null => j == JNull
    case Bool(b) => j == JBool(b)
    case Str(s) => j == JStr(s)
    case Num(finite, id) => finite && j == JNum(id)
    case Undefined => false
    case NotJson => false
    case Object(r) =>
      r in h &&
      match h[r]
      case ArrayNode(plain, slots, extra) =>
        plain && extra == [] && j.JArray? && |j.items| == |slots|
        && forall i :: 0 <= i < |slots| ==>
             slots[i].Some? && Plainly(slots[i].value) && Mirrors(h, slots[i].value.value, j.items[i], omit)
      case ObjectNode(prototype, own) =>
        prototype != Foreign && j.JObject? && j.bare == (prototype == NoPrototype) &&
            MirrorsOwn(h, own, j, |j.members|, omit)
  }

  /** The first `n` members of `j` are the properties `own`. */
  predicate MirrorsOwn(h: Heap, own: seq<(Key, Property)>, j: Json, n: nat, omit: bool)
    requires j.JObject? && n <= |j.members|
    decreases j, 0, |own|
  {
    if own == [] then n == 0
    else
      var (key, p) := own[|own| - 1];
      && key.Name? && Plainly(p)
      && if p.value == Undefined && omit then MirrorsOwn(h, own[..|own| - 1], j, n, omit)
         else n > 0 && j.members[n - 1].0 == key.name && Mirrors(h, p.value, j.members[n - 1].1, omit)
              && MirrorsOwn(h, own[..|own| - 1], j, n - 1, omit)
  }

  // ---------------------------------------------------------------------------------------------
  // What the source computes, as functions

  /** `copy`: `None` where it throws. */
  function CopyValue(h: Heap, v: Value, ancestors: set<Ref>, omit: bool): Option<Json>
    decreases |h.Keys - ancestors|, 0
  {
    match v
    case Null => Some(JNull)
    case Bool(b) => Some(JBool(b))
    case Str(s) => Some(JStr(s))
    case Num(finite, id) => if finite then Some(JNum(id)) else None
    case Undefined => None
    case NotJson => None
    case Object(r) =>
      if r !in h || r in ancestors then None
      else
        Shrinks(h, ancestors, r);
        match h[r]
        case ArrayNode(plain, slots, extra) =>
          if !plain || Present(slots) + |extra| != |slots| then None
          else
            var items := CopySlots(h, slots, ancestors + {r}, omit);
            if items.Some? then Some(JArray(items.value)) else None
        case ObjectNode(prototype, own) =>
          if prototype == Foreign then None
          else
            var members := CopyOwn(h, own, ancestors + {r}, omit);
            if members.Some? then Some(JObject(prototype == NoPrototype, members.value)) else None
  }

  function CopySlots(h: Heap, slots: seq<Option<Property>>, ancestors: set<Ref>, omit: bool): Option<seq<Json>>
    decreases |h.Keys - ancestors|, 1, |slots|
  {
    if slots == [] then Some([])
    else
      var init := CopySlots(h, slots[..|slots| - 1], ancestors, omit);
      var last := slots[|slots| - 1];
      if init.None? || last.None? || !Plainly(last.value) then None
      else
        var item := CopyValue(h, last.value.value, ancestors, omit);
        if item.Some? then Some(init.value + [item.value]) else None
  }

  function CopyOwn(h: Heap, own: seq<(Key, Property)>, ancestors: set<Ref>, omit: bool): Option<seq<(string, Json)>>
    decreases |h.Keys - ancestors|, 1, |own|
  {
    if own == [] then Some([])
    else
      var init := CopyOwn(h, own[..|own| - 1], ancestors, omit);
      var (key, p) := own[|own| - 1];
      if init.None? || key.Symbol? || !Plainly(p) then None
      else if p.value == Undefined && omit then init
      else
        var member := CopyValue(h, p.value, ancestors, omit);
        if member.Some? then Some(init.value + [(key.name, member.value)]) else None
  }

  lemma Shrinks(h: Heap, ancestors: set<Ref>, r: Ref)
    requires r in h && r !in ancestors
    ensures |h.Keys - (ancestors + {r})| < |h.Keys - ancestors|
  {
    assert h.Keys - (ancestors + {r}) == h.Keys - ancestors - {r};
  }

  // ---------------------------------------------------------------------------------------------
  // A copy mirrors its value, and every mirrored value copies

  lemma {:induction false} CopyMirrors(h: Heap, v: Value, ancestors: set<Ref>, omit: bool)
    requires CopyValue(h, v, ancestors, omit).Some?
    ensures Mirrors(h, v, CopyValue(h, v, ancestors, omit).value, omit)
    decreases |h.Keys - ancestors|, 0
  {
    if v.Object? {
      Shrinks(h, ancestors, v.ref);
      var j := CopyValue(h, v, ancestors, omit).value;
      match h[v.ref] {
        case ArrayNode(plain, slots, extra) =>
          CopySlotsMirror(h, slots, ancestors + {v.ref}, omit);
          AllPresent(slots);
        case ObjectNode(prototype, own) => CopyOwnMirrors(h, own, ancestors + {v.ref}, omit, j);
      }
    }
  }

  lemma {:induction false} AllPresent(slots: seq<Option<Property>>)
    ensures Present(slots) <= |slots|
    ensures (forall i :: 0 <= i < |slots| ==> slots[i].Some?) <==> Present(slots) == |slots|
  {
    if slots != [] { AllPresent(slots[..|slots| - 1]); }
  }

  lemma {:induction false} CopySlotsMirror(h: Heap, slots: seq<Option<Property>>, ancestors: set<Ref>, omit: bool)
    requires CopySlots(h, slots, ancestors, omit).Some?
    ensures var items := CopySlots(h, slots, ancestors, omit).value;
      |items| == |slots| && forall i :: 0 <= i < |slots| ==>
        slots[i].Some? && Plainly(slots[i].value) && Mirrors(h, slots[i].value.value, items[i], omit)
    decreases |h.Keys - ancestors|, 1, |slots|
  {
    if slots != [] {
      CopySlotsMirror(h, slots[..|slots| - 1], ancestors, omit);
      CopyMirrors(h, slots[|slots| - 1].value.value, ancestors, omit);
    }
  }

  lemma {:induction false} CopyOwnMirrors(h: Heap, own: seq<(Key, Property)>, ancestors: set<Ref>, omit: bool, j: Json)
    requires CopyOwn(h, own, ancestors, omit).Some? && j.JObject?
    requires CopyOwn(h, own, ancestors, omit).value <= j.members
    ensures MirrorsOwn(h, own, j, |CopyOwn(h, own, ancestors, omit).value|, omit)
    decreases |h.Keys - ancestors|, 1, |own|
  {
    if own != [] {
      CopyOwnMirrors(h, own[..|own| - 1], ancestors, omit, j);
      var p := own[|own| - 1].1;
      if !(p.value == Undefined && omit) { CopyMirrors(h, p.value, ancestors, omit); }
    }
  }

  function Size(j: Json): nat
    decreases j, 0
  {
    match j
    case JArray(items) => 1 + SizeItems(j, |items|)
    case JObject(_, members) => 1 + SizeMembers(j, |members|)
    case _ => 1
  }

  function SizeItems(j: Json, n: nat): (size: nat)
    requires j.JArray? && n <= |j.items|
    ensures forall i :: 0 <= i < n ==> Size(j.items[i]) <= size
    decreases j, 0, n
  {
    if n == 0 then 0 else SizeItems(j, n - 1) + Size(j.items[n - 1])
  }

  function SizeMembers(j: Json, n: nat): (size: nat)
    requires j.JObject? && n <= |j.members|
    ensures forall i :: 0 <= i < n ==> Size(j.members[i].1) <= size
    decreases j, 0, n
  {
    if n == 0 then 0 else SizeMembers(j, n - 1) + Size(j.members[n - 1].1)
  }

  lemma ItemIsSmaller(j: Json, i: nat)
    requires j.JArray? && i < |j.items|
    ensures Size(j.items[i]) < Size(j)
  {
    assert Size(j.items[i]) <= SizeItems(j, |j.items|);
  }

  lemma MemberIsSmaller(j: Json, i: nat)
    requires j.JObject? && i < |j.members|
    ensures Size(j.members[i].1) < Size(j)
  {
    assert Size(j.members[i].1) <= SizeMembers(j, |j.members|);
  }

  /** A value has one tree. */
  lemma {:induction false} MirrorIsUnique(h: Heap, v: Value, a: Json, b: Json, omit: bool)
    requires Mirrors(h, v, a, omit) && Mirrors(h, v, b, omit)
    ensures a == b
    decreases a, 1
  {
    if v.Object? {
      match h[v.ref] {
        case ArrayNode(plain, slots, extra) =>
          forall i | 0 <= i < |slots| ensures a.items[i] == b.items[i] {
            MirrorIsUnique(h, slots[i].value.value, a.items[i], b.items[i], omit);
          }
        case ObjectNode(prototype, own) => OwnMirrorIsUnique(h, own, a, b, |a.members|, |b.members|, omit);
      }
    }
  }

  lemma {:induction false} OwnMirrorIsUnique(h: Heap, own: seq<(Key, Property)>, a: Json, b: Json, n: nat, m: nat,
      omit: bool)
    requires a.JObject? && b.JObject? && n <= |a.members| && m <= |b.members|
    requires MirrorsOwn(h, own, a, n, omit) && MirrorsOwn(h, own, b, m, omit)
    ensures n == m && a.members[..n] == b.members[..m]
    decreases a, 0, |own|
  {
    if own != [] {
      var p := own[|own| - 1].1;
      if p.value == Undefined && omit {
        OwnMirrorIsUnique(h, own[..|own| - 1], a, b, n, m, omit);
      } else {
        OwnMirrorIsUnique(h, own[..|own| - 1], a, b, n - 1, m - 1, omit);
        MirrorIsUnique(h, p.value, a.members[n - 1].1, b.members[m - 1].1, omit);
        assert a.members[..n] == a.members[..n - 1] + [a.members[n - 1]];
        assert b.members[..m] == b.members[..m - 1] + [b.members[m - 1]];
      }
    }
  }

  /** The ancestors have trees too, each larger than what is being copied: so it is none of them. */
  ghost predicate Above(h: Heap, ancestors: set<Ref>, size: nat, omit: bool) {
    forall r :: r in ancestors ==> exists j :: Mirrors(h, Object(r), j, omit) && Size(j) > size
  }

  /** What is being copied is none of its ancestors. */
  lemma NotAnAncestor(h: Heap, r: Ref, j: Json, ancestors: set<Ref>, omit: bool)
    requires Mirrors(h, Object(r), j, omit) && Above(h, ancestors, Size(j), omit)
    ensures r !in ancestors
  {
    hide Mirrors, Size;
    if r in ancestors {
      var larger :| Mirrors(h, Object(r), larger, omit) && Size(larger) > Size(j);
      MirrorIsUnique(h, Object(r), j, larger, omit);
    }
  }

  lemma {:induction false} MirroredCopies(h: Heap, v: Value, j: Json, ancestors: set<Ref>, omit: bool)
    requires Mirrors(h, v, j, omit) && Above(h, ancestors, Size(j), omit)
    ensures CopyValue(h, v, ancestors, omit) == Some(j)
    decreases |h.Keys - ancestors|, 0
  {
    hide Above, Size;
    if v.Object? {
      NotAnAncestor(h, v.ref, j, ancestors, omit);
      Shrinks(h, ancestors, v.ref);
      match h[v.ref] {
        case ArrayNode(plain, slots, extra) =>
          AllPresent(slots);
          MirroredSlotsCopy(h, v.ref, slots, j, ancestors, omit);
          assert j.items[..|slots|] == j.items;
        case ObjectNode(prototype, own) =>
          MirroredOwnCopies(h, v.ref, own, j, |j.members|, ancestors, omit);
          assert j.members[..|j.members|] == j.members;
      }
    }
  }

  lemma AboveChild(h: Heap, r: Ref, j: Json, child: Json, ancestors: set<Ref>, omit: bool)
    requires Mirrors(h, Object(r), j, omit) && Above(h, ancestors, Size(j), omit) && Size(child) < Size(j)
    ensures Above(h, ancestors + {r}, Size(child), omit)
  {
    forall a | a in ancestors + {r} ensures exists k :: Mirrors(h, Object(a), k, omit) && Size(k) > Size(child) {
      if a in ancestors {
        var k :| Mirrors(h, Object(a), k, omit) && Size(k) > Size(j);
      }
    }
  }

  lemma {:induction false} MirroredSlotsCopy(h: Heap, r: Ref, slots: seq<Option<Property>>, j: Json,
      ancestors: set<Ref>, omit: bool)
    requires r in h && r !in ancestors && j.JArray? && |slots| <= |j.items|
    requires Mirrors(h, Object(r), j, omit) && Above(h, ancestors, Size(j), omit)
    requires forall i :: 0 <= i < |slots| ==>
      slots[i].Some? && Plainly(slots[i].value) && Mirrors(h, slots[i].value.value, j.items[i], omit)
    ensures CopySlots(h, slots, ancestors + {r}, omit) == Some(j.items[..|slots|])
    decreases |h.Keys - (ancestors + {r})|, 1, |slots|
  {
    hide Mirrors, CopyValue, Above, Size;
    if slots != [] {
      var n := |slots| - 1;
      MirroredSlotsCopy(h, r, slots[..n], j, ancestors, omit);
      ItemIsSmaller(j, n);
      AboveChild(h, r, j, j.items[n], ancestors, omit);
      MirroredCopies(h, slots[n].value.value, j.items[n], ancestors + {r}, omit);
      assert j.items[..n + 1] == j.items[..n] + [j.items[n]];
    }
  }

  lemma {:induction false} MirroredOwnCopies(h: Heap, r: Ref, own: seq<(Key, Property)>, j: Json, n: nat,
      ancestors: set<Ref>, omit: bool)
    requires r in h && r !in ancestors && j.JObject? && n <= |j.members|
    requires Mirrors(h, Object(r), j, omit) && Above(h, ancestors, Size(j), omit)
    requires MirrorsOwn(h, own, j, n, omit)
    ensures CopyOwn(h, own, ancestors + {r}, omit) == Some(j.members[..n])
    decreases |h.Keys - (ancestors + {r})|, 1, |own|
  {
    hide Mirrors, CopyValue, Above, Size;
    if own != [] {
      var p := own[|own| - 1].1;
      if p.value == Undefined && omit {
        MirroredOwnCopies(h, r, own[..|own| - 1], j, n, ancestors, omit);
      } else {
        MirroredOwnCopies(h, r, own[..|own| - 1], j, n - 1, ancestors, omit);
        MemberIsSmaller(j, n - 1);
        AboveChild(h, r, j, j.members[n - 1].1, ancestors, omit);
        MirroredCopies(h, p.value, j.members[n - 1].1, ancestors + {r}, omit);
        assert j.members[..n] == j.members[..n - 1] + [j.members[n - 1]];
      }
    }
  }

  /**
    * `copyJson` succeeds exactly on the values that unfold to a finite strict-JSON tree, however much of
    * the graph is shared, and returns that tree.
    */
  lemma CopySucceedsOnTrees(h: Heap, v: Value, omit: bool)
    ensures CopyValue(h, v, {}, omit).Some? <==> exists j :: Mirrors(h, v, j, omit)
    ensures forall j :: Mirrors(h, v, j, omit) ==> CopyValue(h, v, {}, omit) == Some(j)
  {
    if CopyValue(h, v, {}, omit).Some? { CopyMirrors(h, v, {}, omit); }
    forall j | Mirrors(h, v, j, omit) ensures CopyValue(h, v, {}, omit) == Some(j) {
      MirroredCopies(h, v, j, {}, omit);
    }
    if exists j :: Mirrors(h, v, j, omit) {
      var j :| Mirrors(h, v, j, omit);
      MirroredCopies(h, v, j, {}, omit);
    }
  }

  // ---------------------------------------------------------------------------------------------
  // The loops

  lemma {:induction false} SlotsFail(h: Heap, slots: seq<Option<Property>>, n: nat, ancestors: set<Ref>, omit: bool)
    requires n <= |slots| && CopySlots(h, slots[..n], ancestors, omit).None?
    ensures CopySlots(h, slots, ancestors, omit).None?
  {
    if n < |slots| {
      assert slots[..|slots| - 1][..n] == slots[..n];
      SlotsFail(h, slots[..|slots| - 1], n, ancestors, omit);
    } else {
      assert slots[..n] == slots;
    }
  }

  lemma {:induction false} OwnFails(h: Heap, own: seq<(Key, Property)>, n: nat, ancestors: set<Ref>, omit: bool)
    requires n <= |own| && CopyOwn(h, own[..n], ancestors, omit).None?
    ensures CopyOwn(h, own, ancestors, omit).None?
  {
    if n < |own| {
      assert own[..|own| - 1][..n] == own[..n];
      OwnFails(h, own[..|own| - 1], n, ancestors, omit);
    } else {
      assert own[..n] == own;
    }
  }

  /** One more element: it extends what was copied, or fails it. */
  lemma SlotStep(h: Heap, slots: seq<Option<Property>>, n: nat, ancestors: set<Ref>, omit: bool)
    requires n < |slots|
    ensures CopySlots(h, slots[..n + 1], ancestors, omit) ==
      if CopySlots(h, slots[..n], ancestors, omit).None? || slots[n].None? || !Plainly(slots[n].value) then None
      else
        var item := CopyValue(h, slots[n].value.value, ancestors, omit);
        if item.Some? then Some(CopySlots(h, slots[..n], ancestors, omit).value + [item.value]) else None
  {
    assert slots[..n + 1][..n] == slots[..n];
  }

  lemma OwnStep(h: Heap, own: seq<(Key, Property)>, n: nat, ancestors: set<Ref>, omit: bool)
    requires n < |own|
    ensures CopyOwn(h, own[..n + 1], ancestors, omit) ==
      if CopyOwn(h, own[..n], ancestors, omit).None? || own[n].0.Symbol? || !Plainly(own[n].1) then None
      else if own[n].1.value == Undefined && omit then CopyOwn(h, own[..n], ancestors, omit)
      else
        var member := CopyValue(h, own[n].1.value, ancestors, omit);
        if member.Some?
        then Some(CopyOwn(h, own[..n], ancestors, omit).value + [(own[n].0.name, member.value)])
        else None
  {
    assert own[..n + 1][..n] == own[..n];
  }

  // ---------------------------------------------------------------------------------------------
  // The copy on the heap: containers of its own, each in one place

  /** How many values a tree's top holds, and which. */
  function Arity(j: Json): nat {
    match j
    case JArray(items) => |items|
    case JObject(_, members) => |members|
    case _ => 0
  }

  function Kid(j: Json, i: nat): (kid: Json)
    requires i < Arity(j)
    ensures kid < j
  {
    if j.JArray? then j.items[i] else j.members[i].1
  }

  function Kids(node: Node): seq<Value> {
    match node
    case ArrayNode(_, slots, _) =>
      seq(|slots|, i requires 0 <= i < |slots| => if slots[i].Some? then slots[i].value.value else Undefined)
    case ObjectNode(_, own) => seq(|own|, i requires 0 <= i < |own| => own[i].1.value)
  }

  /** The container is a plain one with the keys of `j`. */
  predicate Frames(node: Node, j: Json) {
    match j
    case JArray(items) =>
      node.ArrayNode? && node.plain && node.extra == [] && |node.slots| == |items|
      && forall i :: 0 <= i < |items| ==> node.slots[i].Some? && Plainly(node.slots[i].value)
    case JObject(bare, members) =>
      node.ObjectNode? && node.prototype == (if bare then NoPrototype else Plain) && |node.own| == |members|
      && forall i :: 0 <= i < |members| ==> node.own[i].0 == Name(members[i].0) && Plainly(node.own[i].1)
    case _ => false
  }

  function Primitive(j: Json): Value {
    match j
    case JNull => Null
    case JBool(b) => Bool(b)
    case JStr(s) => Str(s)
    case JNum(id) => Num(true, id)
    case _ => Undefined
  }

  predicate IsContainer(j: Json) { j.JArray? || j.JObject? }

  /** The containers met when `v` is unfolded along `j`. */
  function Containers(h: Heap, v: Value, j: Json): set<Ref>
    decreases j, 1
  {
    if v.Object? && v.ref in h && Frames(h[v.ref], j)
    then {v.ref} + KidContainers(h, Kids(h[v.ref]), j, Arity(j))
    else {}
  }

  function KidContainers(h: Heap, kids: seq<Value>, j: Json, n: nat): set<Ref>
    requires n <= |kids| && n <= Arity(j)
    decreases j, 0, n
  {
    if n == 0 then {} else KidContainers(h, kids, j, n - 1) + Containers(h, kids[n - 1], Kid(j, n - 1))
  }

  /** `v` is `j` on the heap, and no container of it is met twice. */
  predicate Built(h: Heap, v: Value, j: Json)
    decreases j, 1
  {
    if IsContainer(j)
    then v.Object? && v.ref in h && Frames(h[v.ref], j) && BuiltKids(h, v.ref, Kids(h[v.ref]), j, Arity(j))
    else v == Primitive(j)
  }

  predicate BuiltKids(h: Heap, r: Ref, kids: seq<Value>, j: Json, n: nat)
    requires n <= |kids| && n <= Arity(j)
    decreases j, 0, n
  {
    n == 0 ||
    (&& BuiltKids(h, r, kids, j, n - 1)
     && Built(h, kids[n - 1], Kid(j, n - 1))
     && var own := Containers(h, kids[n - 1], Kid(j, n - 1));
        r !in own && own !! KidContainers(h, kids, j, n - 1))
  }

  predicate Agree(a: Heap, b: Heap, refs: set<Ref>) {
    forall r | r in refs :: r in a && r in b && a[r] == b[r]
  }

  lemma {:induction false} BuiltFrame(a: Heap, b: Heap, v: Value, j: Json)
    requires Built(a, v, j) && Agree(a, b, Containers(a, v, j))
    ensures Built(b, v, j) && Containers(b, v, j) == Containers(a, v, j)
    decreases j, 1
  {
    if IsContainer(j) { KidsFrame(a, b, v.ref, Kids(a[v.ref]), Kids(a[v.ref]), j, j, Arity(j)); }
  }

  lemma {:induction false} KidsFrame(a: Heap, b: Heap, r: Ref, kids: seq<Value>, kids': seq<Value>, j: Json, j': Json,
      n: nat)
    requires n <= |kids| && n <= Arity(j) && n <= |kids'| && n <= Arity(j')
    requires BuiltKids(a, r, kids, j, n) && Agree(a, b, KidContainers(a, kids, j, n))
    requires forall i | 0 <= i < n :: kids'[i] == kids[i] && Kid(j', i) == Kid(j, i)
    ensures BuiltKids(b, r, kids', j', n) && KidContainers(b, kids', j', n) == KidContainers(a, kids, j, n)
    decreases j, 0, n
  {
    if n > 0 {
      KidsFrame(a, b, r, kids, kids', j, j', n - 1);
      BuiltFrame(a, b, kids[n - 1], Kid(j, n - 1));
    }
  }

  /** What is built mirrors its tree. */
  lemma {:induction false} BuiltMirrors(h: Heap, v: Value, j: Json)
    requires Built(h, v, j)
    ensures Mirrors(h, v, j, false)
    decreases j, 1
  {
    if IsContainer(j) {
      var kids := Kids(h[v.ref]);
      forall i | 0 <= i < Arity(j) ensures Mirrors(h, kids[i], Kid(j, i), false) {
        KidBuilt(h, v.ref, kids, j, Arity(j), i);
        BuiltMirrors(h, kids[i], Kid(j, i));
      }
      if j.JObject? {
        var own := h[v.ref].own;
        forall i | 0 <= i < |own| ensures Mirrors(h, own[i].1.value, j.members[i].1, false) {
          assert kids[i] == own[i].1.value;
        }
        BuiltOwn(h, own, j, |j.members|);
      } else {
        var slots := h[v.ref].slots;
        forall i | 0 <= i < |slots| ensures Mirrors(h, slots[i].value.value, j.items[i], false) {
          assert kids[i] == slots[i].value.value;
        }
      }
    }
  }

  lemma {:induction false} BuiltOwn(h: Heap, own: seq<(Key, Property)>, j: Json, n: nat)
    requires j.JObject? && n <= |j.members| && n == |own|
    requires forall i | 0 <= i < n ::
      own[i].0 == Name(j.members[i].0) && Plainly(own[i].1) && Mirrors(h, own[i].1.value, j.members[i].1, false)
    ensures MirrorsOwn(h, own, j, n, false)
  {
    if n > 0 { BuiltOwn(h, own[..n - 1], j, n - 1); }
  }

  lemma {:induction false} KidBuilt(h: Heap, r: Ref, kids: seq<Value>, j: Json, n: nat, i: nat)
    requires n <= |kids| && n <= Arity(j) && i < n && BuiltKids(h, r, kids, j, n)
    ensures var own := Containers(h, kids[i], Kid(j, i));
      Built(h, kids[i], Kid(j, i)) && r !in own && own <= KidContainers(h, kids, j, n)
    decreases n
  {
    if i < n - 1 { KidBuilt(h, r, kids, j, n - 1, i); }
  }

  lemma {:induction false} KidsApart(h: Heap, r: Ref, kids: seq<Value>, j: Json, n: nat, i: nat, k: nat)
    requires n <= |kids| && n <= Arity(j) && i < k < n && BuiltKids(h, r, kids, j, n)
    ensures Containers(h, kids[i], Kid(j, i)) !! Containers(h, kids[k], Kid(j, k))
    decreases n
  {
    if k < n - 1 {
      KidsApart(h, r, kids, j, n - 1, i, k);
    } else {
      KidBuilt(h, r, kids, j, n - 1, i);
    }
  }

  /** A way from the top of `j` down to a container in it. */
  predicate IsPath(j: Json, path: seq<nat>)
    decreases |path|
  {
    if path == [] then IsContainer(j) else path[0] < Arity(j) && IsPath(Kid(j, path[0]), path[1..])
  }

  /** The container the way leads to. */
  function At(h: Heap, v: Value, j: Json, path: seq<nat>): (r: Ref)
    requires Built(h, v, j) && IsPath(j, path)
    ensures r in Containers(h, v, j)
    decreases |path|
  {
    if path == [] then v.ref
    else
      KidBuilt(h, v.ref, Kids(h[v.ref]), j, Arity(j), path[0]);
      At(h, Kids(h[v.ref])[path[0]], Kid(j, path[0]), path[1..])
  }

  /** Nothing in a built tree is shared: one way only leads to each container. */
  lemma {:induction false} OneWay(h: Heap, v: Value, j: Json, p: seq<nat>, q: seq<nat>)
    requires Built(h, v, j) && IsPath(j, p) && IsPath(j, q) && At(h, v, j, p) == At(h, v, j, q)
    ensures p == q
    decreases |p|
  {
    if p == [] {
      if q != [] { KidBuilt(h, v.ref, Kids(h[v.ref]), j, Arity(j), q[0]); }
    } else {
      var kids := Kids(h[v.ref]);
      KidBuilt(h, v.ref, kids, j, Arity(j), p[0]);
      if q != [] {
        KidBuilt(h, v.ref, kids, j, Arity(j), q[0]);
        if p[0] == q[0] {
          OneWay(h, kids[p[0]], Kid(j, p[0]), p[1..], q[1..]);
        } else if p[0] < q[0] {
          KidsApart(h, v.ref, kids, j, Arity(j), p[0], q[0]);
        } else {
          KidsApart(h, v.ref, kids, j, Arity(j), q[0], p[0]);
        }
      }
    }
  }

  /** `b` is `a` with more containers. */
  predicate Extends(a: Heap, b: Heap) { Agree(a, b, a.Keys) }

  predicate Within(refs: set<Ref>, from: Ref, to: Ref) {
    forall r | r in refs :: from <= r < to
  }

  /** A container being filled: its first values stand in it. */
  predicate Filling(h: Heap, target: Ref, j: Json) {
    && target in h && |Kids(h[target])| >= Arity(j)
    && BuiltKids(h, target, Kids(h[target]), j, Arity(j))
  }

  /** A plain array of that length, nothing in it. */
  function Holes(length: nat): Node { ArrayNode(true, seq(length, _ => None), []) }

  /** `defineData` on an array: the next index. */
  function WithItem(node: Node, index: nat, v: Value): Node
    requires node.ArrayNode? && index < |node.slots|
  {
    node.(slots := node.slots[index := Some(Property(true, true, v))])
  }

  /** `defineData` on an object: another key. */
  function WithMember(node: Node, name: string, v: Value): Node
    requires node.ObjectNode?
  {
    node.(own := node.own + [(Name(name), Property(true, true, v))])
  }

  /** One more value in a container that is being filled. */
  lemma Filled(h: Heap, target: Ref, j: Json, v: Value, more: Json, node: Node)
    requires Filling(h, target, j) && target !in KidContainers(h, Kids(h[target]), j, Arity(j))
    requires var n := Arity(j);
      && Arity(more) == n + 1 && (forall i | 0 <= i < n :: Kid(more, i) == Kid(j, i))
      && |Kids(node)| > n && (forall i | 0 <= i < n :: Kids(node)[i] == Kids(h[target])[i]) && Kids(node)[n] == v
      && Built(h, v, Kid(more, n)) && target !in Containers(h, v, Kid(more, n))
      && Containers(h, v, Kid(more, n)) !! KidContainers(h, Kids(h[target]), j, n)
    ensures var after := h[target := node];
      && Filling(after, target, more)
      && KidContainers(after, Kids(node), more, Arity(more)) ==
           KidContainers(h, Kids(h[target]), j, Arity(j)) + Containers(h, v, Kid(more, Arity(j)))
  {
    hide Built, Containers;
    var n := Arity(j);
    FirstStand(h, target, j, more, node);
    LastStands(h, target, v, Kid(more, n), node);
    assert n + 1 - 1 == n;
  }

  /** The values a container had already are not disturbed by one more. */
  lemma FirstStand(h: Heap, target: Ref, j: Json, more: Json, node: Node)
    requires Filling(h, target, j) && target !in KidContainers(h, Kids(h[target]), j, Arity(j))
    requires var n := Arity(j);
      && n <= Arity(more) && (forall i | 0 <= i < n :: Kid(more, i) == Kid(j, i))
      && n <= |Kids(node)| && (forall i | 0 <= i < n :: Kids(node)[i] == Kids(h[target])[i])
    ensures var (n, after) := (Arity(j), h[target := node]);
      && BuiltKids(after, target, Kids(node), more, n)
      && KidContainers(after, Kids(node), more, n) == KidContainers(h, Kids(h[target]), j, n)
  {
    hide Kids, Kid, Arity, BuiltKids, KidContainers;
    KidsExist(h, Kids(h[target]), j, Arity(j));
    KidsFrame(h, h[target := node], target, Kids(h[target]), Kids(node), j, more, Arity(j));
  }

  lemma LastStands(h: Heap, target: Ref, v: Value, j: Json, node: Node)
    requires Built(h, v, j) && target !in Containers(h, v, j)
    ensures var after := h[target := node]; Built(after, v, j) && Containers(after, v, j) == Containers(h, v, j)
  {
    hide Built, Containers;
    ContainersExist(h, v, j);
    BuiltFrame(h, h[target := node], v, j);
  }

  /** A container being filled is not disturbed by containers made meanwhile. */
  lemma FillingFrame(a: Heap, b: Heap, target: Ref, j: Json)
    requires Filling(a, target, j) && Extends(a, b)
    requires KidContainers(a, Kids(a[target]), j, Arity(j)) <= a.Keys
    ensures Filling(b, target, j)
    ensures KidContainers(b, Kids(b[target]), j, Arity(j)) == KidContainers(a, Kids(a[target]), j, Arity(j))
  {
    KidsFrame(a, b, target, Kids(a[target]), Kids(b[target]), j, j, Arity(j));
  }

  lemma {:induction false} ContainersExist(h: Heap, v: Value, j: Json)
    ensures Containers(h, v, j) <= h.Keys
    decreases j, 1
  {
    if v.Object? && v.ref in h && Frames(h[v.ref], j) { KidsExist(h, Kids(h[v.ref]), j, Arity(j)); }
  }

  lemma {:induction false} KidsExist(h: Heap, kids: seq<Value>, j: Json, n: nat)
    requires n <= |kids| && n <= Arity(j)
    ensures KidContainers(h, kids, j, n) <= h.Keys
    decreases j, 0, n
  {
    if n > 0 {
      KidsExist(h, kids, j, n - 1);
      ContainersExist(h, kids[n - 1], Kid(j, n - 1));
    }
  }

  /** An array being filled from `items`, with containers made from `target` on. */
  predicate ArrayUnderWay(h: Heap, target: Ref, items: seq<Json>, length: nat, next: Ref) {
    && target in h && target < next
    && var node := h[target];
    && node.ArrayNode? && node.plain && node.extra == [] && |node.slots| == length && |items| <= length
    && (forall i | 0 <= i < |items| :: node.slots[i].Some? && Plainly(node.slots[i].value))
    && Filling(h, target, JArray(items))
    && Within(KidContainers(h, Kids(node), JArray(items), |items|), target + 1, next)
  }

  lemma ArrayStep(was: Heap, h: Heap, target: Ref, items: seq<Json>, length: nat, start: Ref, v: Value, j: Json,
      next: Ref)
    requires ArrayUnderWay(was, target, items, length, start) && |items| < length && Extends(was, h)
    requires Stands(h, v, j, start, next) && start <= next
    ensures target in h && h[target] == was[target]
    ensures ArrayUnderWay(h[target := WithItem(h[target], |items|, v)], target, items + [j], length, next)
  {
    hide Built, BuiltKids, Containers, KidContainers;
    var node := WithItem(h[target], |items|, v);
    var kids := Kids(was[target]);
    KidsExist(was, kids, JArray(items), |items|);
    FillingFrame(was, h, target, JArray(items));
    assert forall i | 0 <= i < |items| :: Kids(node)[i] == kids[i];
    Filled(h, target, JArray(items), v, JArray(items + [j]), node);
  }

  lemma ArrayDone(h: Heap, target: Ref, items: seq<Json>, next: Ref)
    requires ArrayUnderWay(h, target, items, |items|, next)
    ensures Stands(h, Object(target), JArray(items), target, next)
  {
  }

  /** An object being filled from `members`. */
  predicate ObjectUnderWay(h: Heap, target: Ref, bare: bool, members: seq<(string, Json)>, next: Ref) {
    && target in h && target < next
    && Frames(h[target], JObject(bare, members)) && Filling(h, target, JObject(bare, members))
    && Within(KidContainers(h, Kids(h[target]), JObject(bare, members), |members|), target + 1, next)
  }

  lemma ObjectStep(was: Heap, h: Heap, target: Ref, bare: bool, members: seq<(string, Json)>, start: Ref,
      name: string, v: Value, j: Json, next: Ref)
    requires ObjectUnderWay(was, target, bare, members, start) && Extends(was, h)
    requires Stands(h, v, j, start, next) && start <= next
    ensures target in h && h[target] == was[target]
    ensures ObjectUnderWay(h[target := WithMember(h[target], name, v)], target, bare, members + [(name, j)], next)
  {
    hide Built, BuiltKids, Containers, KidContainers;
    var node := WithMember(h[target], name, v);
    var kids := Kids(was[target]);
    KidsExist(was, kids, JObject(bare, members), |members|);
    FillingFrame(was, h, target, JObject(bare, members));
    assert forall i | 0 <= i < |members| :: Kids(node)[i] == kids[i];
    Filled(h, target, JObject(bare, members), v, JObject(bare, members + [(name, j)]), node);
  }

  lemma ObjectDone(h: Heap, target: Ref, bare: bool, members: seq<(string, Json)>, next: Ref)
    requires ObjectUnderWay(h, target, bare, members, next)
    ensures Stands(h, Object(target), JObject(bare, members), target, next)
  {
  }

  predicate Bounded(h: Heap, next: Ref) {
    forall r | r in h :: r < next
  }

  /** From one heap to a later one: containers were added, from `from` on. */
  predicate Grown(a: Heap, from: Ref, b: Heap, to: Ref) {
    Bounded(a, from) && Bounded(b, to) && from <= to && Extends(a, b)
  }

  lemma GrownByOne(a: Heap, next: Ref, node: Node)
    requires Bounded(a, next)
    ensures Grown(a, next, a[next := node], next + 1)
  {
  }

  lemma GrownParts(a: Heap, from: Ref, b: Heap, to: Ref)
    requires Grown(a, from, b, to)
    ensures Bounded(a, from) && Bounded(b, to) && from <= to && Extends(a, b)
  {
  }

  lemma GrownTwice(a: Heap, from: Ref, b: Heap, mid: Ref, c: Heap, to: Ref)
    requires Grown(a, from, b, mid) && Grown(b, mid, c, to)
    ensures Grown(a, from, c, to)
  {
  }

  /** Filling a container that was added changes none of those before. */
  lemma GrownFilled(a: Heap, from: Ref, b: Heap, to: Ref, target: Ref, node: Node)
    requires Grown(a, from, b, to) && target in b && from <= target
    ensures Grown(a, from, b[target := node], to)
  {
  }

  lemma ExtendsTwice(a: Heap, b: Heap, from: Ref, c: Heap, to: Ref)
    requires Extends(a, b) && Grown(b, from, c, to)
    ensures Extends(a, c)
  {
  }

  /** The value stands on the heap as `j`, in containers made meanwhile. */
  predicate Stands(h: Heap, v: Value, j: Json, from: Ref, to: Ref) {
    Built(h, v, j) && Within(Containers(h, v, j), from, to)
  }

  lemma PrimitiveStands(h: Heap, v: Value, j: Json, next: Ref)
    requires !IsContainer(j) && v == Primitive(j) && !v.Object?
    ensures Stands(h, v, j, next, next)
  {
  }

  lemma NotGrown(h: Heap, next: Ref)
    requires Bounded(h, next)
    ensures Grown(h, next, h, next)
  {
  }

  lemma EmptyUnderWay(h: Heap, target: Ref, length: nat)
    requires target in h && h[target] == Holes(length)
    ensures ArrayUnderWay(h, target, [], length, target + 1)
  {
  }

  lemma BareUnderWay(h: Heap, target: Ref, bare: bool)
    requires target in h && h[target] == ObjectNode(if bare then NoPrototype else Plain, [])
    ensures ObjectUnderWay(h, target, bare, [], target + 1)
  {
  }

  lemma StillFilling(h: Heap, target: Ref, items: seq<Json>, length: nat, next: Ref)
    requires ArrayUnderWay(h, target, items, length, next)
    ensures target in h && h[target].ArrayNode? && |h[target].slots| == length && target < next
  {
  }

  lemma StillObject(h: Heap, target: Ref, bare: bool, members: seq<(string, Json)>, next: Ref)
    requires ObjectUnderWay(h, target, bare, members, next)
    ensures target in h && h[target].ObjectNode? && target < next
  {
  }

  lemma NoSlots(h: Heap, ancestors: set<Ref>, omit: bool)
    ensures CopySlots(h, [], ancestors, omit) == Some([])
  {
  }

  lemma NoOwn(h: Heap, ancestors: set<Ref>, omit: bool)
    ensures CopyOwn(h, [], ancestors, omit) == Some([])
  {
  }

  /** One round of the loop over an array: `was` when the item's copy began, `h` when it stood. */
  lemma ItemPlaced(first: Heap, was: Heap, start: Ref, h: Heap, next: Ref, target: Ref, items: seq<Json>, length: nat,
      v: Value, j: Json)
    requires Grown(first, target, was, start) && Grown(was, start, h, next)
    requires ArrayUnderWay(was, target, items, length, start) && |items| < length && Stands(h, v, j, start, next)
    ensures target in h && h[target].ArrayNode? && |items| < |h[target].slots|
    ensures var after := h[target := WithItem(h[target], |items|, v)];
      Grown(first, target, after, next) && ArrayUnderWay(after, target, items + [j], length, next)
  {
    hide Stands, Bounded, Agree, Grown, ArrayUnderWay;
    GrownTwice(first, target, was, start, h, next);
    GrownParts(was, start, h, next);
    ArrayStep(was, h, target, items, length, start, v, j, next);
    StillFilling(was, target, items, length, start);
    GrownFilled(first, target, h, next, target, WithItem(h[target], |items|, v));
  }

  /** One walk: the set of ancestors its levels share, and the heap, on which the copy gets containers of its own. */
  class Walk {
    var ancestors: set<Ref>
    var heap: Heap
    var next: Ref

    predicate Valid()
      reads this
    {
      Bounded(heap, next)
    }

    constructor (h: Heap)
      ensures Valid() && ancestors == {} && heap == h
    {
      ancestors, heap, next := {}, h, 0;
      new;
      var rest := h.Keys;
      while rest != {}
        invariant rest <= h.Keys && heap == h && ancestors == {}
        invariant forall r | r in h && r !in rest :: r < next
      {
        var r :| r in rest;
        if r >= next { next := r + 1; }
        rest := rest - {r};
      }
    }

    method Copy(h: Heap, v: Value, omit: bool) returns (result: Option<Value>)
      requires Valid() && Extends(h, heap)
      modifies this
      ensures ancestors == old(ancestors) && Grown(old(heap), old(next), heap, next)
      ensures result.Some? <==> CopyValue(h, v, ancestors, omit).Some?
      ensures result.Some? ==> Stands(heap, result.value, CopyValue(h, v, ancestors, omit).value, old(next), next)
      decreases |h.Keys - ancestors|, 0
    {
      hide Stands, Bounded, Agree, CopySlots, CopyOwn;
      NotGrown(heap, next);
      match v {
        case Null => PrimitiveStands(heap, v, JNull, next); return Some(Null);
        case Bool(b) => PrimitiveStands(heap, v, JBool(b), next); return Some(Bool(b));
        case Str(s) => PrimitiveStands(heap, v, JStr(s), next); return Some(Str(s));
        case Num(finite, id) =>
          if !finite {
            return None;
          }
          PrimitiveStands(heap, v, JNum(id), next);
          return Some(Num(true, id));
        case Undefined => return None;
        case NotJson => return None;
        case Object(r) =>
          if r !in h || r in ancestors {
            return None;
          }
          result := CopyContainer(h, r, omit);
      }
    }

    method CopyContainer(h: Heap, r: Ref, omit: bool) returns (result: Option<Value>)
      requires Valid() && Extends(h, heap) && r in h && r !in ancestors
      modifies this
      ensures ancestors == old(ancestors) && Grown(old(heap), old(next), heap, next)
      ensures result.Some? <==> CopyValue(h, Object(r), ancestors, omit).Some?
      ensures result.Some? ==>
        Stands(heap, result.value, CopyValue(h, Object(r), ancestors, omit).value, old(next), next)
      decreases |h.Keys - ancestors|, 0, 0
    {
      hide Stands, Bounded, Agree, CopySlots, CopyOwn, Grown;
      NotGrown(heap, next);
      ghost var before := ancestors;
      Shrinks(h, ancestors, r);
      ancestors := ancestors + {r};
      match h[r] {
        case ArrayNode(plain, slots, extra) =>
          if !plain || Present(slots) + |extra| + 1 != |slots| + 1 {
            result := None;
          } else {
            result := CopyArray(h, slots, omit);
          }
        case ObjectNode(prototype, own) =>
          if prototype != Plain && prototype != NoPrototype {
            result := None;
          } else {
            result := CopyObject(h, prototype, own, omit);
          }
      }
      ancestors := ancestors - {r};
      assert ancestors == before;
    }

    method CopyArray(h: Heap, slots: seq<Option<Property>>, omit: bool) returns (result: Option<Value>)
      requires Valid() && Extends(h, heap)
      modifies this
      ensures ancestors == old(ancestors) && Grown(old(heap), old(next), heap, next)
      ensures result.Some? <==> CopySlots(h, slots, ancestors, omit).Some?
      ensures result.Some? ==>
        Stands(heap, result.value, JArray(CopySlots(h, slots, ancestors, omit).value), old(next), next)
      decreases |h.Keys - ancestors|, 1
    {
      hide Stands, Bounded, Agree, Grown, CopyValue, CopySlots, ArrayUnderWay, Holes, WithItem;
      ghost var first := heap;
      var target := next;
      GrownByOne(heap, next, Holes(|slots|));
      next := next + 1;
      heap := heap[target := Holes(|slots|)];
      ghost var items := [];
      EmptyUnderWay(heap, target, |slots|);
      NoSlots(h, ancestors, omit);
      assert slots[..0] == [];
      for index := 0 to |slots|
        invariant ancestors == old(ancestors) && Grown(first, target, heap, next)
        invariant Some(items) == CopySlots(h, slots[..index], ancestors, omit) && |items| == index
        invariant ArrayUnderWay(heap, target, items, |slots|, next)
      {
        SlotStep(h, slots, index, ancestors, omit);
        if slots[index].None? || !slots[index].value.enumerable || !slots[index].value.data {
          SlotsFail(h, slots, index + 1, ancestors, omit);
          return None;
        }
        ghost var start, was := next, heap;
        GrownParts(first, target, heap, next);
        ExtendsTwice(h, first, target, heap, next);
        var item := Copy(h, slots[index].value.value, omit);
        if item.None? {
          GrownTwice(first, target, was, start, heap, next);
          SlotsFail(h, slots, index + 1, ancestors, omit);
          return None;
        }
        ghost var copied := CopyValue(h, slots[index].value.value, ancestors, omit).value;
        ItemPlaced(first, was, start, heap, next, target, items, |slots|, item.value, copied);
        heap := heap[target := WithItem(heap[target], index, item.value)];
        items := items + [copied];
      }
      assert slots[..|slots|] == slots;
      ArrayDone(heap, target, items, next);
      return Some(Object(target));
    }

    method CopyObject(h: Heap, prototype: Prototype, own: seq<(Key, Property)>, omit: bool)
        returns (result: Option<Value>)
      requires Valid() && Extends(h, heap) && prototype != Foreign
      modifies this
      ensures ancestors == old(ancestors) && Grown(old(heap), old(next), heap, next)
      ensures result.Some? <==> CopyOwn(h, own, ancestors, omit).Some?
      ensures result.Some? ==>
        Stands(heap, result.value, JObject(prototype == NoPrototype, CopyOwn(h, own, ancestors, omit).value),
            old(next), next)
      decreases |h.Keys - ancestors|, 1
    {
      hide Stands, Bounded, Agree, Grown, CopyValue, CopyOwn, ObjectUnderWay;
      ghost var first := heap;
      var target := next;
      GrownByOne(heap, next, ObjectNode(prototype, []));
      next := next + 1;
      heap := heap[target := ObjectNode(prototype, [])];
      ghost var bare := prototype == NoPrototype;
      ghost var members := [];
      BareUnderWay(heap, target, bare);
      NoOwn(h, ancestors, omit);
      assert own[..0] == [];
      for index := 0 to |own|
        invariant ancestors == old(ancestors) && Grown(first, target, heap, next)
        invariant Some(members) == CopyOwn(h, own[..index], ancestors, omit)
        invariant ObjectUnderWay(heap, target, bare, members, next)
      {
        OwnStep(h, own, index, ancestors, omit);
        var (key, p) := own[index];
        if key.Symbol? || !p.enumerable || !p.data {
          OwnFails(h, own, index + 1, ancestors, omit);
          return None;
        }
        if p.value == Undefined && omit {
          continue;
        }
        ghost var start, was := next, heap;
        GrownParts(first, target, heap, next);
        ExtendsTwice(h, first, target, heap, next);
        var member := Copy(h, p.value, omit);
        GrownTwice(first, target, was, start, heap, next);
        GrownParts(was, start, heap, next);
        if member.None? {
          OwnFails(h, own, index + 1, ancestors, omit);
          return None;
        }
        ghost var copied := CopyValue(h, p.value, ancestors, omit).value;
        ObjectStep(was, heap, target, bare, members, start, key.name, member.value, copied, next);
        StillObject(was, target, bare, members, start);
        GrownFilled(first, target, heap, next, target, WithMember(heap[target], key.name, member.value));
        heap := heap[target := WithMember(heap[target], key.name, member.value)];
        members := members + [(key.name, copied)];
      }
      assert own[..|own|] == own;
      ObjectDone(heap, target, bare, members, next);
      return Some(Object(target));
    }

    /** `check` says yes exactly where `copy` succeeds. */
    method Check(h: Heap, v: Value) returns (ok: bool)
      modifies this`ancestors
      ensures ancestors == old(ancestors)
      ensures ok <==> CopyValue(h, v, ancestors, false).Some?
      decreases |h.Keys - ancestors|, 0
    {
      if v.Null? || v.Str? || v.Bool? {
        return true;
      }
      if v.Num? {
        return v.finite;
      }
      if !v.Object? || v.ref !in h {
        return false;
      }
      ghost var before := ancestors;
      match h[v.ref] {
        case ArrayNode(plain, slots, extra) =>
          AllPresent(slots);
          if !plain {
            return false;
          }
          if Present(slots) + |extra| + 1 != |slots| + 1 || exists i :: 0 <= i < |extra| && extra[i].Symbol? {
            if Present(slots) < |slots| { HolesFail(h, slots, ancestors + {v.ref}, false); }
            return false;
          }
          if v.ref in ancestors {
            return false;
          }
          Shrinks(h, ancestors, v.ref);
          ancestors := ancestors + {v.ref};
          ok := CheckArray(h, slots);
        case ObjectNode(prototype, own) =>
          if prototype != Plain && prototype != NoPrototype {
            return false;
          }
          if exists i :: 0 <= i < |own| && own[i].0.Symbol? {
            ghost var i :| 0 <= i < |own| && own[i].0.Symbol?;
            OwnStep(h, own, i, ancestors + {v.ref}, false);
            OwnFails(h, own, i + 1, ancestors + {v.ref}, false);
            return false;
          }
          if v.ref in ancestors {
            return false;
          }
          Shrinks(h, ancestors, v.ref);
          ancestors := ancestors + {v.ref};
          ok := CheckObject(h, own);
      }
      ancestors := ancestors - {v.ref};
      assert ancestors == before;
    }

    method CheckArray(h: Heap, slots: seq<Option<Property>>) returns (ok: bool)
      modifies this`ancestors
      ensures ancestors == old(ancestors)
      ensures ok <==> CopySlots(h, slots, ancestors, false).Some?
      decreases |h.Keys - ancestors|, 1
    {
      for index := 0 to |slots|
        invariant ancestors == old(ancestors)
        invariant CopySlots(h, slots[..index], ancestors, false).Some?
      {
        SlotStep(h, slots, index, ancestors, false);
        var good := slots[index].Some? && slots[index].value.enumerable && slots[index].value.data;
        if good {
          good := Check(h, slots[index].value.value);
        }
        if !good {
          SlotsFail(h, slots, index + 1, ancestors, false);
          return false;
        }
      }
      assert slots[..|slots|] == slots;
      return true;
    }

    method CheckObject(h: Heap, own: seq<(Key, Property)>) returns (ok: bool)
      requires forall i :: 0 <= i < |own| ==> own[i].0.Name?
      modifies this`ancestors
      ensures ancestors == old(ancestors)
      ensures ok <==> CopyOwn(h, own, ancestors, false).Some?
      decreases |h.Keys - ancestors|, 1
    {
      for index := 0 to |own|
        invariant ancestors == old(ancestors)
        invariant CopyOwn(h, own[..index], ancestors, false).Some?
      {
        OwnStep(h, own, index, ancestors, false);
        var p := own[index].1;
        var good := p.enumerable && p.data;
        if good {
          good := Check(h, p.value);
        }
        if !good {
          OwnFails(h, own, index + 1, ancestors, false);
          return false;
        }
      }
      assert own[..|own|] == own;
      return true;
    }
  }

  /** An array with a hole does not copy. */
  lemma {:induction false} HolesFail(h: Heap, slots: seq<Option<Property>>, ancestors: set<Ref>, omit: bool)
    requires Present(slots) < |slots|
    ensures CopySlots(h, slots, ancestors, omit).None?
  {
    AllPresent(slots);
    var i :| 0 <= i < |slots| && slots[i].None?;
    SlotStep(h, slots, i, ancestors, omit);
    SlotsFail(h, slots, i + 1, ancestors, omit);
  }

  /**
    * `copyJson`: succeeds exactly where the value unfolds to a strict-JSON tree. The result is that tree, built of
    * containers that are all new and each in one place, so it unfolds to the tree the value unfolds to; what was on
    * the heap stays as it was.
    */
  method CopyJson(h: Heap, v: Value, omit: bool) returns (result: Option<Value>, heap: Heap)
    ensures result.Some? <==> exists j :: Mirrors(h, v, j, omit)
    ensures Extends(h, heap)
    ensures result.Some? ==> forall j | Mirrors(h, v, j, omit) ::
      && Built(heap, result.value, j) && Containers(heap, result.value, j) !! h.Keys
      && Mirrors(heap, result.value, j, false)
  {
    CopySucceedsOnTrees(h, v, omit);
    var walk := new Walk(h);
    result := walk.Copy(h, v, omit);
    heap := walk.heap;
    if result.Some? {
      CopyMirrors(h, v, {}, omit);
      forall j | Mirrors(h, v, j, omit)
        ensures Built(heap, result.value, j) && Containers(heap, result.value, j) !! h.Keys
        ensures Mirrors(heap, result.value, j, false)
      {
        MirrorIsUnique(h, v, j, CopyValue(h, v, {}, omit).value, omit);
        BuiltMirrors(heap, result.value, j);
      }
    }
  }

  /** `isJsonValue`: true exactly on the values `copyJson` copies. */
  method IsJsonValue(h: Heap, v: Value) returns (ok: bool)
    ensures ok <==> exists j :: Mirrors(h, v, j, false)
  {
    CopySucceedsOnTrees(h, v, false);
    var walk := new Walk(h);
    ok := walk.Check(h, v);
  }
}

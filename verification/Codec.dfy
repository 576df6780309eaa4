/**
 * The path codec between a state's ops and the wire: paths are interned on their second use, and left out when they
 * repeat the previous op's.
 */
module Codec {
  type Seg(==, !new)
  type Json(==, !new)
  type Path = seq<Seg>

  /** Set, delete, append, truncate, splice, move. */
  datatype Kind = S | D | A | T | P | M

  datatype Op = Replace(value: Json) | Edit(kind: Kind, path: Path, payload: seq<Json>)

  datatype Field = Inline(path: Path) | Id(id: nat) | Data(json: Json)

  /** Tuples as on the wire. The fields of an edit are its path reference, unless omitted, and its payload. */
  datatype WireOp = Base(value: Json) | Define(id: nat, path: Path) | Tuple(kind: Kind, fields: seq<Field>)

  datatype Option<+X> = None | Some(value: X)

  datatype Result<+X> = Ok(value: X) | PathError

  function Arity(kind: Kind): nat {
    match kind
    case D => 0
    case P => 3
    case _ => 1
  }

  /** Ops as the types allow them: only splices and moves may target the root. */
  predicate ValidOp(op: Op) {
    op.Edit? ==> |op.payload| == Arity(op.kind) && (op.kind.P? || op.kind.M? || op.path != [])
  }

  predicate ValidOps(ops: seq<Op>) {
    forall i | 0 <= i < |ops| :: ValidOp(ops[i])
  }

  function DataOf(payload: seq<Json>): seq<Field> {
    seq(|payload|, i requires 0 <= i < |payload| => Data(payload[i]))
  }

  // --- the encoder ---

  datatype Dictionary = Dictionary(seen: set<Path>, ids: map<Path, nat>, nextId: nat)

  const Empty := Dictionary({}, map[], 0)

  datatype Encoded = Encoded(dict: Dictionary, previous: Option<Path>, out: seq<WireOp>)

  function EncodeOp(dict: Dictionary, previous: Option<Path>, op: Op): Encoded {
    match op
    case Replace(v) => Encoded(Empty, None, [Base(v)])
    case Edit(kind, path, payload) =>
      if previous == Some(path) then Encoded(dict, previous, [Tuple(kind, DataOf(payload))])
      else if path in dict.ids then
        Encoded(dict, Some(path), [Tuple(kind, [Id(dict.ids[path])] + DataOf(payload))])
      else if path in dict.seen then
        var id := dict.nextId;
        Encoded(dict.(ids := dict.ids[path := id], nextId := id + 1), Some(path),
                [Define(id, path), Tuple(kind, [Id(id)] + DataOf(payload))])
      else
        Encoded(dict.(seen := dict.seen + {path}), Some(path), [Tuple(kind, [Inline(path)] + DataOf(payload))])
  }

  /** A batch from its `i`th op on. */
  function EncodeFrom(dict: Dictionary, previous: Option<Path>, ops: seq<Op>): Encoded
    decreases |ops|
  {
    if ops == [] then Encoded(dict, previous, [])
    else
      var first := EncodeOp(dict, previous, ops[0]);
      var rest := EncodeFrom(first.dict, first.previous, ops[1..]);
      rest.(out := first.out + rest.out)
  }

  /** The previous path is forgotten between batches. */
  function EncodeBatch(dict: Dictionary, ops: seq<Op>): Encoded {
    EncodeFrom(dict, None, ops)
  }

  // --- the decoder ---

  datatype Decoded = Decoded(paths: map<nat, Path>, previous: Option<Path>, ops: seq<Op>)

  predicate Short(kind: Kind, fields: seq<Field>) {
    |fields| == Arity(kind)
  }

  function PayloadOf(fields: seq<Field>): Option<seq<Json>> {
    if forall i | 0 <= i < |fields| :: fields[i].Data? then
      Some(seq(|fields|, i requires 0 <= i < |fields| && fields[i].Data? => fields[i].json))
    else None
  }

  function PathOf(paths: map<nat, Path>, previous: Option<Path>, kind: Kind, fields: seq<Field>): Option<Path> {
    if Short(kind, fields) then previous
    else if fields == [] then None
    else
      match fields[0]
      case Inline(path) => Some(path)
      case Id(id) => if id in paths then Some(paths[id]) else None
      case Data(_) => None
  }

  function DecodeOp(paths: map<nat, Path>, previous: Option<Path>, w: WireOp): Result<Decoded> {
    match w
    case Base(v) => Ok(Decoded(map[], None, [Replace(v)]))
    case Define(id, path) => Ok(Decoded(paths[id := path], previous, []))
    case Tuple(kind, fields) =>
      var path := PathOf(paths, previous, kind, fields);
      var payload := PayloadOf(if Short(kind, fields) || fields == [] then fields else fields[1..]);
      if path.None? || payload.None? then PathError
      else if !kind.P? && !kind.M? && path.value == [] then PathError
      else Ok(Decoded(paths, path, [Edit(kind, path.value, payload.value)]))
  }

  function DecodeFrom(paths: map<nat, Path>, previous: Option<Path>, wire: seq<WireOp>): Result<Decoded>
    decreases |wire|
  {
    if wire == [] then Ok(Decoded(paths, previous, []))
    else
      match DecodeOp(paths, previous, wire[0])
      case PathError => PathError
      case Ok(first) =>
        match DecodeFrom(first.paths, first.previous, wire[1..])
        case PathError => PathError
        case Ok(rest) => Ok(rest.(ops := first.ops + rest.ops))
  }

  /** One frame: the previous path is forgotten between frames. */
  function DecodeFrame(paths: map<nat, Path>, wire: seq<WireOp>): Result<Decoded> {
    DecodeFrom(paths, None, wire)
  }

  // --- the two agree ---

  /** Every id the encoder may reference is one the decoder knows, with the same path; the next id is new. */
  predicate InStep(dict: Dictionary, paths: map<nat, Path>) {
    forall path | path in dict.ids ::
      dict.ids[path] < dict.nextId && dict.ids[path] in paths && paths[dict.ids[path]] == path
  }

  /** Decoding knows at least the previous path the encoder counts on. */
  predicate Covers(known: Option<Path>, previous: Option<Path>) {
    previous.Some? ==> known == previous
  }

  lemma PayloadRoundTrip(payload: seq<Json>)
    ensures PayloadOf(DataOf(payload)) == Some(payload)
  {
    assert PayloadOf(DataOf(payload)).value == payload;
  }

  lemma {:induction false} DecodeAppend(paths: map<nat, Path>, previous: Option<Path>, a: seq<WireOp>, b: seq<WireOp>)
    ensures DecodeFrom(paths, previous, a + b) ==
      match DecodeFrom(paths, previous, a)
      case PathError => PathError
      case Ok(first) =>
        match DecodeFrom(first.paths, first.previous, b)
        case PathError => PathError
        case Ok(rest) => Ok(rest.(ops := first.ops + rest.ops))
    decreases |a|
  {
    if a == [] {
      assert a + b == b;
      var r := DecodeFrom(paths, previous, b);
      if r.Ok? { assert [] + r.value.ops == r.value.ops; }
    } else {
      assert (a + b)[0] == a[0] && (a + b)[1..] == a[1..] + b;
      var first := DecodeOp(paths, previous, a[0]);
      if first.Ok? {
        DecodeAppend(first.value.paths, first.value.previous, a[1..], b);
        var rest := DecodeFrom(first.value.paths, first.value.previous, a[1..]);
        if rest.Ok? {
          var last := DecodeFrom(rest.value.paths, rest.value.previous, b);
          if last.Ok? {
            assert first.value.ops + (rest.value.ops + last.value.ops)
                == (first.value.ops + rest.value.ops) + last.value.ops;
          }
        }
      }
    }
  }

  /** What one op's encoding decodes to, from a decoder in step. */
  predicate Decodes(r: Result<Decoded>, e: Encoded, ops: seq<Op>) {
    r.Ok? && r.value.ops == ops && InStep(e.dict, r.value.paths) && Covers(r.value.previous, e.previous)
  }

  lemma DecodeOne(paths: map<nat, Path>, previous: Option<Path>, w: WireOp)
    ensures DecodeFrom(paths, previous, [w]) == DecodeOp(paths, previous, w)
  {
    var r := DecodeOp(paths, previous, w);
    if r.Ok? { assert r.value.ops + [] == r.value.ops; }
  }

  /** The number of fields tells whether a tuple has a path reference. */
  lemma TupleDecodes(paths: map<nat, Path>, known: Option<Path>, ref: Option<Field>, op: Op)
    requires ValidOp(op) && op.Edit?
    requires match ref
             case None => known == Some(op.path)
             case Some(Inline(path)) => path == op.path
             case Some(Id(id)) => id in paths && paths[id] == op.path
             case Some(Data(_)) => false
    ensures var fields := (if ref.Some? then [ref.value] else []) + DataOf(op.payload);
      DecodeOp(paths, known, Tuple(op.kind, fields)) == Ok(Decoded(paths, Some(op.path), [op]))
  {
    var fields := (if ref.Some? then [ref.value] else []) + DataOf(op.payload);
    PayloadRoundTrip(op.payload);
    if ref.Some? {
      assert fields[1..] == DataOf(op.payload);
      assert !Short(op.kind, fields);
    } else {
      assert fields == DataOf(op.payload);
    }
  }

  lemma OpRoundTrip(dict: Dictionary, previous: Option<Path>, paths: map<nat, Path>, known: Option<Path>, op: Op)
    requires ValidOp(op)
    requires op.Edit? ==> InStep(dict, paths) && Covers(known, previous)
    ensures var e := EncodeOp(dict, previous, op); Decodes(DecodeFrom(paths, known, e.out), e, [op])
  {
    hide DecodeOp;
    match op
    case Replace(v) =>
      DecodeOne(paths, known, Base(v));
      BaseDecodes(paths, known, v);
    case Edit(kind, path, payload) =>
      if previous == Some(path) {
        TupleDecodes(paths, known, None, op);
        assert [] + DataOf(payload) == DataOf(payload);
        DecodeOne(paths, known, Tuple(kind, DataOf(payload)));
      } else if path in dict.ids {
        TupleDecodes(paths, known, Some(Id(dict.ids[path])), op);
        DecodeOne(paths, known, Tuple(kind, [Id(dict.ids[path])] + DataOf(payload)));
      } else if path in dict.seen {
        DefinedDecodes(paths, known, dict.nextId, op);
      } else {
        TupleDecodes(paths, known, Some(Inline(path)), op);
        DecodeOne(paths, known, Tuple(kind, [Inline(path)] + DataOf(payload)));
      }
  }

  lemma BaseDecodes(paths: map<nat, Path>, known: Option<Path>, v: Json)
    ensures DecodeOp(paths, known, Base(v)) == Ok(Decoded(map[], None, [Replace(v)]))
  {
  }

  /** A definition, then a reference to it. */
  lemma DefinedDecodes(paths: map<nat, Path>, known: Option<Path>, id: nat, op: Op)
    requires ValidOp(op) && op.Edit?
    ensures DecodeFrom(paths, known, [Define(id, op.path), Tuple(op.kind, [Id(id)] + DataOf(op.payload))]) ==
      Ok(Decoded(paths[id := op.path], Some(op.path), [op]))
  {
    var define, use := Define(id, op.path), Tuple(op.kind, [Id(id)] + DataOf(op.payload));
    TupleDecodes(paths[id := op.path], known, Some(Id(id)), op);
    DecodeOne(paths, known, define);
    DecodeOne(paths[id := op.path], known, use);
    DecodeAppend(paths, known, [define], [use]);
    assert [define] + [use] == [define, use];
    assert [] + [op] == [op];
  }

  /** A batch decodes to its ops, whatever the decoder believed the previous path was. */
  lemma {:induction false} BatchRoundTrip(dict: Dictionary, previous: Option<Path>, paths: map<nat, Path>,
                                          known: Option<Path>, ops: seq<Op>)
    requires ValidOps(ops)
    requires (ops != [] && ops[0].Replace?) || (InStep(dict, paths) && Covers(known, previous))
    ensures var e := EncodeFrom(dict, previous, ops); Decodes(DecodeFrom(paths, known, e.out), e, ops)
    decreases |ops|
  {
    if ops != [] {
      var first := EncodeOp(dict, previous, ops[0]);
      OpRoundTrip(dict, previous, paths, known, ops[0]);
      var d := DecodeFrom(paths, known, first.out).value;
      BatchRoundTrip(first.dict, first.previous, d.paths, d.previous, ops[1..]);
      var rest := EncodeFrom(first.dict, first.previous, ops[1..]);
      DecodeAppend(paths, known, first.out, rest.out);
      assert [ops[0]] + ops[1..] == ops;
    }
  }

  // --- whole streams ---

  function Flatten<X>(groups: seq<seq<X>>): seq<X> {
    if groups == [] then [] else groups[0] + Flatten(groups[1..])
  }

  /** Batches encoded one by one and sent as one frame: what links do with waiting state. */
  function EncodeFrame(dict: Dictionary, batches: seq<seq<Op>>): Encoded
    decreases |batches|
  {
    if batches == [] then Encoded(dict, None, [])
    else
      var first := EncodeBatch(dict, batches[0]);
      var rest := EncodeFrame(first.dict, batches[1..]);
      rest.(out := first.out + rest.out)
  }

  function EncodeFrames(dict: Dictionary, frames: seq<seq<seq<Op>>>): seq<seq<WireOp>>
    decreases |frames|
  {
    if frames == [] then []
    else
      var first := EncodeFrame(dict, frames[0]);
      [first.out] + EncodeFrames(first.dict, frames[1..])
  }

  function DecodeFrames(paths: map<nat, Path>, frames: seq<seq<WireOp>>): Result<seq<Op>>
    decreases |frames|
  {
    if frames == [] then Ok([])
    else
      match DecodeFrame(paths, frames[0])
      case PathError => PathError
      case Ok(first) =>
        match DecodeFrames(first.paths, frames[1..])
        case PathError => PathError
        case Ok(rest) => Ok(first.ops + rest)
  }

  predicate ValidBatches(batches: seq<seq<Op>>) {
    forall i | 0 <= i < |batches| :: ValidOps(batches[i])
  }

  /** The frame begins with a replacement: a recovery point. */
  predicate StartsFresh(batches: seq<seq<Op>>) {
    batches != [] && batches[0] != [] && batches[0][0].Replace?
  }

  lemma {:induction false} FrameRoundTrip(dict: Dictionary, paths: map<nat, Path>, known: Option<Path>,
                                          batches: seq<seq<Op>>)
    requires ValidBatches(batches)
    requires InStep(dict, paths) || StartsFresh(batches)
    ensures var e := EncodeFrame(dict, batches);
      var d := DecodeFrom(paths, known, e.out);
      d.Ok? && d.value.ops == Flatten(batches) && (batches != [] ==> InStep(e.dict, d.value.paths))
      && (InStep(dict, paths) ==> InStep(e.dict, d.value.paths))
    decreases |batches|
  {
    if batches != [] {
      var first := EncodeBatch(dict, batches[0]);
      BatchRoundTrip(dict, None, paths, known, batches[0]);
      var d := DecodeFrom(paths, known, first.out).value;
      FrameRoundTrip(first.dict, d.paths, d.previous, batches[1..]);
      DecodeAppend(paths, known, first.out, EncodeFrame(first.dict, batches[1..]).out);
    }
  }

  /**
   * Round trip: however the batches of one encoder are concatenated into frames, a decoder that gets the frames in
   * order decodes exactly the ops, in order, and never fails.
   */
  lemma {:induction false} StreamRoundTrip(dict: Dictionary, paths: map<nat, Path>, frames: seq<seq<seq<Op>>>)
    requires InStep(dict, paths)
    requires forall i | 0 <= i < |frames| :: ValidBatches(frames[i])
    ensures DecodeFrames(paths, EncodeFrames(dict, frames)) == Ok(Flatten(Flatten(frames)))
    decreases |frames|
  {
    if frames != [] {
      var first := EncodeFrame(dict, frames[0]);
      FrameRoundTrip(dict, paths, None, frames[0]);
      var d := DecodeFrame(paths, first.out).value;
      StreamRoundTrip(first.dict, d.paths, frames[1..]);
      FlattenAppend(frames[0], Flatten(frames[1..]));
      assert EncodeFrames(dict, frames)[1..] == EncodeFrames(first.dict, frames[1..]);
    }
  }

  lemma {:induction false} FlattenAppend<X>(a: seq<seq<X>>, b: seq<seq<X>>)
    ensures Flatten(a + b) == Flatten(a) + Flatten(b)
    decreases |a|
  {
    if a == [] {
      assert a + b == b;
    } else {
      FlattenAppend(a[1..], b);
      assert (a + b)[1..] == a[1..] + b;
    }
  }

  /** A session from its start. */
  lemma SessionRoundTrip(frames: seq<seq<seq<Op>>>)
    requires forall i | 0 <= i < |frames| :: ValidBatches(frames[i])
    ensures DecodeFrames(map[], EncodeFrames(Empty, frames)) == Ok(Flatten(Flatten(frames)))
  {
    StreamRoundTrip(Empty, map[], frames);
  }

  /**
   * A batch that begins with a replacement is a recovery point: from there on, any decoder (a new one, too) decodes
   * what the encoder sends, whatever either remembers from before.
   */
  lemma RecoveryPoint(dict: Dictionary, paths: map<nat, Path>, frames: seq<seq<seq<Op>>>)
    requires frames != [] && StartsFresh(frames[0])
    requires forall i | 0 <= i < |frames| :: ValidBatches(frames[i])
    ensures DecodeFrames(paths, EncodeFrames(dict, frames)) == Ok(Flatten(Flatten(frames)))
  {
    var first := EncodeFrame(dict, frames[0]);
    FrameRoundTrip(dict, paths, None, frames[0]);
    var d := DecodeFrame(paths, first.out).value;
    StreamRoundTrip(first.dict, d.paths, frames[1..]);
    FlattenAppend(frames[0], Flatten(frames[1..]));
    assert EncodeFrames(dict, frames)[1..] == EncodeFrames(first.dict, frames[1..]);
  }

  // --- the objects the source builds ---

  class Encoder {
    var seen: set<Path>
    var ids: map<Path, nat>
    var nextId: nat

    function Dict(): Dictionary
      reads this
    {
      Dictionary(seen, ids, nextId)
    }

    constructor ()
      ensures Dict() == Empty
    {
      seen, ids, nextId := {}, map[], 0;
    }

    method EncodeNext(previous: Option<Path>, op: Op) returns (next: Option<Path>, out: seq<WireOp>)
      modifies this
      ensures Encoded(Dict(), next, out) == EncodeOp(old(Dict()), previous, op)
    {
      match op {
        case Replace(v) =>
          seen, ids, nextId := {}, map[], 0;
          return None, [Base(v)];
        case Edit(kind, path, payload) =>
          if previous == Some(path) { return previous, [Tuple(kind, DataOf(payload))]; }
          out := [];
          var ref := Inline(path);
          if path in ids {
            ref := Id(ids[path]);
          } else if path in seen {
            var id := nextId;
            nextId := nextId + 1;
            ids := ids[path := id];
            out := [Define(id, path)];
            ref := Id(id);
          } else {
            seen := seen + {path};
          }
          out := out + [Tuple(kind, [ref] + DataOf(payload))];
          return Some(path), out;
      }
    }

    method Encode(ops: seq<Op>) returns (out: seq<WireOp>)
      modifies this
      ensures var e := EncodeBatch(old(Dict()), ops); Dict() == e.dict && out == e.out
    {
      hide EncodeOp;
      var previous: Option<Path> := None;
      out := [];
      ghost var whole := EncodeBatch(Dict(), ops);
      var i := 0;
      assert ops[0..] == ops && [] + whole.out == whole.out;
      while i < |ops|
        invariant i <= |ops|
        invariant var rest := EncodeFrom(Dict(), previous, ops[i..]);
          rest.dict == whole.dict && out + rest.out == whole.out
      {
        assert ops[i..][1..] == ops[i + 1..];
        var next, emitted := EncodeNext(previous, ops[i]);
        ghost var rest := EncodeFrom(Dict(), next, ops[i + 1..]);
        assert out + (emitted + rest.out) == (out + emitted) + rest.out;
        out := out + emitted;
        previous := next;
        i := i + 1;
      }
      assert out + [] == out;
    }
  }
}

/** What crosses a link for one state member, and where that takes its stream. */
module Streams {
  /** A revision of a state member. */
  type Value(==, !new)
  /** One op of the delta vocabulary. */
  type Op(==, !new)

  type Member = string

  datatype Option<+T> = None | Some(value: T)

  /** An encoded op: the encoder session it belongs to and its place in that session. */
  datatype WireOp = WireOp(session: nat, index: nat, op: Op)

  /**
   * The payload of a state frame. A snapshot, reset or error (a base) starts the session of a fresh encoder;
   * `session` names it here so that a gap is visible (on the wire the receiver just starts a fresh decoder).
   */
  datatype Body =
    | Snap(value: Value, session: nat)
    | Reset(value: Value, session: nat)
    | Error(session: nat)
    | Ops(ops: seq<WireOp>)

  datatype Frame =
    | State(hold: nat, m: Member, body: Body)
    | Shape(id: nat, listed: seq<Member>)
    | Other(tag: nat)

  type Apply = (Value, Op) -> Value

  /**
   * Where a stream is, to a reader that keeps up with the sessions of its sender: `Nothing` before the hold has a
   * shape, `Empty` before the first base, then a value with the position in the session; `Broken` after an error (a
   * position, no value); `Gap` once something arrived that does not follow: state before the shape, or an op out of
   * its place. What a consumer of the stream holds is another matter, see `Consumers`.
   */
  datatype Copy =
    | Nothing
    | Empty
    | Copy(value: Value, session: nat, next: nat)
    | Broken(session: nat, next: nat)
    | Gap

  function ReceiveOp(apply: Apply, copy: Copy, op: WireOp): Copy {
    match copy
    case Copy(v, session, next) =>
      if op.session == session && op.index == next then Copy(apply(v, op.op), session, next + 1) else Gap
    case Broken(session, next) =>
      if op.session == session && op.index == next then Broken(session, next + 1) else Gap
    case _ => Gap
  }

  function ReceiveOps(apply: Apply, copy: Copy, ops: seq<WireOp>): Copy {
    if ops == [] then copy
    else ReceiveOp(apply, ReceiveOps(apply, copy, ops[..|ops| - 1]), ops[|ops| - 1])
  }

  /** A base recovers nothing once there was a gap: `Gap` is final. */
  function Receive(apply: Apply, copy: Copy, body: Body): Copy {
    if copy.Gap? || copy.Nothing? then Gap else
    match body
    case Snap(v, session) => Copy(v, session, 0)
    case Reset(v, session) => Copy(v, session, 0)
    case Error(session) => Broken(session, 0)
    case Ops(ops) => ReceiveOps(apply, copy, ops)
  }

  predicate IsState(f: Frame, hold: nat, m: Member) {
    f.State? && f.hold == hold && f.m == m
  }

  predicate IsShape(f: Frame, hold: nat) {
    f.Shape? && f.id == hold
  }

  /** One frame, as far as stream (hold, m) is concerned. */
  function ReceiveFrame(apply: Apply, copy: Copy, f: Frame, hold: nat, m: Member): Copy {
    if IsState(f, hold, m) then Receive(apply, copy, f.body)
    else if IsShape(f, hold) && copy.Nothing? then Empty
    else copy
  }

  function ReceiveAll(apply: Apply, copy: Copy, frames: seq<Frame>, hold: nat, m: Member): Copy {
    if frames == [] then copy
    else ReceiveFrame(apply, ReceiveAll(apply, copy, frames[..|frames| - 1], hold, m), frames[|frames| - 1], hold, m)
  }

  function CopyOf(apply: Apply, frames: seq<Frame>, hold: nat, m: Member): Copy {
    ReceiveAll(apply, Nothing, frames, hold, m)
  }

  lemma {:induction false} ReceiveOpsAppend(apply: Apply, copy: Copy, a: seq<WireOp>, b: seq<WireOp>)
    ensures ReceiveOps(apply, copy, a + b) == ReceiveOps(apply, ReceiveOps(apply, copy, a), b)
  {
    if b == [] {
      assert a + b == a;
    } else {
      var init := b[..|b| - 1];
      ReceiveOpsAppend(apply, copy, a, init);
      assert (a + b)[..|a + b| - 1] == a + init;
    }
  }

  lemma {:induction false} GapStays(apply: Apply, ops: seq<WireOp>)
    ensures ReceiveOps(apply, Gap, ops) == Gap
  {
    if ops != [] { GapStays(apply, ops[..|ops| - 1]); }
  }

  /** Two batches of ops received one after the other are as good as their concatenation. */
  lemma ReceiveConcatenated(apply: Apply, copy: Copy, a: seq<WireOp>, b: seq<WireOp>)
    ensures Receive(apply, Receive(apply, copy, Ops(a)), Ops(b)) == Receive(apply, copy, Ops(a + b))
  {
    ReceiveOpsAppend(apply, copy, a, b);
    GapStays(apply, b);
    OpsShape(apply, copy, a);
  }

  lemma {:induction false} OpsShape(apply: Apply, copy: Copy, ops: seq<WireOp>)
    ensures ReceiveOps(apply, copy, ops).Nothing? ==> copy.Nothing?
  {
    if ops != [] { OpsShape(apply, copy, ops[..|ops| - 1]); }
  }

  /** Receiving is a fold: what is delivered first does not change what the rest does. */
  lemma {:induction false} ReceiveAllAppend(apply: Apply, copy: Copy, a: seq<Frame>, b: seq<Frame>, hold: nat,
      m: Member)
    ensures ReceiveAll(apply, copy, a + b, hold, m) ==
      ReceiveAll(apply, ReceiveAll(apply, copy, a, hold, m), b, hold, m)
  {
    if b == [] {
      assert a + b == a;
    } else {
      var init := b[..|b| - 1];
      ReceiveAllAppend(apply, copy, a, init, hold, m);
      assert (a + b)[..|a + b| - 1] == a + init;
    }
  }

  lemma {:induction false} GapStaysAll(apply: Apply, frames: seq<Frame>, hold: nat, m: Member)
    ensures ReceiveAll(apply, Gap, frames, hold, m) == Gap
  {
    if frames != [] {
      GapStaysAll(apply, frames[..|frames| - 1], hold, m);
    }
  }

  /** A stream without a gap has none in any prefix: what was delivered so far is gap free too. */
  lemma PrefixGapFree(apply: Apply, delivered: seq<Frame>, inFlight: seq<Frame>, hold: nat, m: Member)
    requires CopyOf(apply, delivered + inFlight, hold, m) != Gap
    ensures CopyOf(apply, delivered, hold, m) != Gap
  {
    ReceiveAllAppend(apply, Nothing, delivered, inFlight, hold, m);
    GapStaysAll(apply, inFlight, hold, m);
  }

  /** One frame more. */
  lemma CopyOfPush(apply: Apply, frames: seq<Frame>, f: Frame, hold: nat, m: Member)
    ensures CopyOf(apply, frames + [f], hold, m) == ReceiveFrame(apply, CopyOf(apply, frames, hold, m), f, hold, m)
  {
    assert (frames + [f])[..|frames + [f]| - 1] == frames;
  }
}

/** Gap freedom said without a receiver: every op directly follows its predecessor, or the base of its session. */
module Sessions {
  import opened Streams

  datatype Item = Start(session: nat) | Step(session: nat, index: nat)

  function OpItems(ops: seq<WireOp>): seq<Item> {
    if ops == [] then [] else OpItems(ops[..|ops| - 1]) + [Step(ops[|ops| - 1].session, ops[|ops| - 1].index)]
  }

  function BodyItems(body: Body): seq<Item> {
    match body
    case Ops(ops) => OpItems(ops)
    case _ => [Start(body.session)]
  }

  /** The items of stream (hold, m), in order. */
  function Items(frames: seq<Frame>, hold: nat, m: Member): seq<Item> {
    if frames == [] then []
    else
      var last := frames[|frames| - 1];
      Items(frames[..|frames| - 1], hold, m) + (if IsState(last, hold, m) then BodyItems(last.body) else [])
  }

  predicate Follows(before: Item, item: Item) {
    item.Start? ||
    (item.session == before.session && item.index == (if before.Start? then 0 else before.index + 1))
  }

  predicate Contiguous(items: seq<Item>) {
    && (items != [] ==> items[0].Start?)
    && forall i | 0 < i < |items| :: Follows(items[i - 1], items[i])
  }

  predicate Shaped(frames: seq<Frame>, hold: nat) {
    exists j | 0 <= j < |frames| :: IsShape(frames[j], hold)
  }

  /** No state of the stream precedes the first shape of its hold. */
  predicate ShapeFirst(frames: seq<Frame>, hold: nat, m: Member) {
    forall i | 0 <= i < |frames| :: IsState(frames[i], hold, m) ==> Shaped(frames[..i], hold)
  }

  /** The position a receiver is at after `items`. */
  predicate At(copy: Copy, items: seq<Item>, shaped: bool) {
    if items == [] then copy == if shaped then Empty else Nothing
    else
      var last := items[|items| - 1];
      var next := if last.Start? then 0 else last.index + 1;
      && (copy.Copy? || copy.Broken?)
      && copy.session == last.session
      && copy.next == next
  }

  predicate Tracks(copy: Copy, items: seq<Item>, shapeFirst: bool, shaped: bool) {
    && (Contiguous(items) && shapeFirst ==> At(copy, items, shaped))
    && (!(Contiguous(items) && shapeFirst) ==> copy == Gap)
    && (items != [] && shapeFirst ==> shaped)
  }

  lemma ContiguousPush(items: seq<Item>, item: Item)
    ensures Contiguous(items + [item]) <==>
      Contiguous(items) && (if items == [] then item.Start? else Follows(items[|items| - 1], item))
  {
    var all := items + [item];
    if Contiguous(all) {
      assert items != [] ==> items[0] == all[0];
      forall i | 0 < i < |items| ensures Follows(items[i - 1], items[i]) {
        assert all[i - 1] == items[i - 1] && all[i] == items[i];
      }
      assert items != [] ==> Follows(all[|items| - 1], all[|items|]);
    }
  }

  lemma {:induction false} OpsTracked(apply: Apply, copy: Copy, items: seq<Item>, ops: seq<WireOp>)
    requires Tracks(copy, items, true, true)
    ensures Tracks(ReceiveOps(apply, copy, ops), items + OpItems(ops), true, true)
  {
    if ops == [] {
      assert items + OpItems(ops) == items;
    } else {
      var init, last := ops[..|ops| - 1], ops[|ops| - 1];
      OpsTracked(apply, copy, items, init);
      var so := items + OpItems(init);
      var item := Step(last.session, last.index);
      assert items + OpItems(ops) == so + [item];
      ContiguousPush(so, item);
    }
  }

  lemma BodyTracked(apply: Apply, copy: Copy, items: seq<Item>, body: Body)
    requires Tracks(copy, items, true, true)
    ensures Tracks(Receive(apply, copy, body), items + BodyItems(body), true, true)
  {
    if body.Ops? {
      OpsTracked(apply, copy, items, body.ops);
      GapStays(apply, body.ops);
    } else {
      ContiguousPush(items, Start(body.session));
    }
  }

  lemma ShapePush(frames: seq<Frame>, f: Frame, hold: nat, m: Member)
    ensures Shaped(frames + [f], hold) <==> Shaped(frames, hold) || IsShape(f, hold)
    ensures ShapeFirst(frames + [f], hold, m) <==>
      ShapeFirst(frames, hold, m) && (IsState(f, hold, m) ==> Shaped(frames, hold))
  {
    var all := frames + [f];
    if Shaped(frames, hold) {
      var j :| 0 <= j < |frames| && IsShape(frames[j], hold);
      assert IsShape(all[j], hold);
    }
    if IsShape(f, hold) { assert IsShape(all[|frames|], hold); }
    assert forall i | 0 <= i < |frames| :: all[..i] == frames[..i] && all[i] == frames[i];
    assert all[..|frames|] == frames && all[|frames|] == f;
  }

  lemma {:induction false} FramesTracked(apply: Apply, frames: seq<Frame>, hold: nat, m: Member)
    ensures Tracks(CopyOf(apply, frames, hold, m), Items(frames, hold, m),
                   ShapeFirst(frames, hold, m), Shaped(frames, hold))
  {
    if frames != [] {
      var init, last := frames[..|frames| - 1], frames[|frames| - 1];
      FramesTracked(apply, init, hold, m);
      ShapePush(init, last, hold, m);
      assert init + [last] == frames;
      if IsState(last, hold, m) {
        if ShapeFirst(frames, hold, m) {
          BodyTracked(apply, CopyOf(apply, init, hold, m), Items(init, hold, m), last.body);
        } else {
          assert CopyOf(apply, init, hold, m).Nothing? || CopyOf(apply, init, hold, m).Gap?;
        }
      } else {
        assert Items(frames, hold, m) == Items(init, hold, m);
      }
    }
  }

  /**
   * A receiver meets no gap exactly when, after the hold's shape, the stream is a concatenation of sessions, each a
   * base followed by a contiguous prefix of the ops of its encoder.
   */
  lemma GapFreeIsConcatenatedSessions(apply: Apply, frames: seq<Frame>, hold: nat, m: Member)
    ensures CopyOf(apply, frames, hold, m) != Gap <==>
      ShapeFirst(frames, hold, m) && Contiguous(Items(frames, hold, m))
  {
    FramesTracked(apply, frames, hold, m);
  }
}

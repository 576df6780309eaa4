/**
  * Switching a relayed hold's state off forgets what waits, while ops that were under way from downstream before
  * it heard of that still come through: when exactly that opens a gap, and a run in which it does. (The consumer
  * that switched the state off has forgotten its copy and ignores such ops.)
  */
module RelayToggling {

  import opened Streams
  import opened Flow
  import opened FlowStreams

  /** Something of the stream waits: a base, or ops. */
  predicate Waits(s: St, h: nat, m: Member) {
    HasSlot(s, h, m) && s.waiting.slots[StateKey(h, m)].StateSlot? &&
    var slot := s.waiting.slots[StateKey(h, m)]; slot.base.Some? || slot.ops != []
  }

  function Position(copy: Copy): Option<(nat, nat)> {
    if copy.Copy? || copy.Broken? then Some((copy.session, copy.next)) else None
  }

  lemma {:induction false} OpsAdvance(apply: Apply, copy: Copy, ops: seq<WireOp>)
    requires ops != [] && ReceiveOps(apply, copy, ops) != Gap
    ensures Position(copy) == Some((ops[0].session, ops[0].index))
    ensures Position(ReceiveOps(apply, copy, ops)) == Some((ops[0].session, ops[0].index + |ops|))
  {
    var init := ops[..|ops| - 1];
    if init == [] {
      assert ReceiveOps(apply, copy, init) == copy;
    } else {
      OpsAdvance(apply, copy, init);
    }
  }

  lemma {:induction false} OpsElsewhere(apply: Apply, copy: Copy, ops: seq<WireOp>)
    requires ops != [] && Position(copy) != Some((ops[0].session, ops[0].index))
    ensures ReceiveOps(apply, copy, ops) == Gap
  {
    if ReceiveOps(apply, copy, ops) != Gap { OpsAdvance(apply, copy, ops); }
  }

  /** A base that waits starts another session than the one the peer is at. */
  predicate NewBase(c: Config, s: St, h: nat, m: Member) {
    HasSlot(s, h, m) && s.waiting.slots[StateKey(h, m)].StateSlot? ==>
      match s.waiting.slots[StateKey(h, m)].base
      case None => true
      case Some(base) =>
        !base.Ops? && (var at := Position(CopyIn(c, s.wire, h, m)); at.Some? ==> at.value.0 != base.session)
  }

  /**
    * A hold is switched off. The next ops from downstream, honest as they are, open a gap towards the peer exactly
    * when something of the stream waited.
    */
  lemma SwitchOffOpensGap(c: Config, s: St, h: nat, m: Member, ops: seq<WireOp>)
    requires Good(c, s, h, m) && IsRelay(s, h) && s.served[h].wanted && h !in s.cut && !Awaits(s, h, m)
    requires NewBase(c, s, h, m)
    requires ops != [] && CopyIn(c, s.inbox + [State(h, m, Ops(ops))], h, m) != Gap
    ensures var t := RelayWant(s, h, false);
      CopyIn(c, t.wire + [State(h, m, Ops(ops))], h, m) == Gap <==> Waits(s, h, m)
  {
    hide Good, CopyOf;
    var f := State(h, m, Ops(ops));
    var t := RelayWant(s, h, false);
    CopyOfPush(c.apply, s.inbox, f, h, m);
    CopyOfPush(c.apply, t.wire, f, h, m);
    RelayAsIs(c, s, h, m);
    var (sent, got) := (CopyIn(c, s.wire, h, m), CopyIn(c, s.inbox, h, m));
    OpsAdvance(c.apply, got, ops);
    if Waits(s, h, m) {
      SlotMoves(c, sent, s.waiting.slots[StateKey(h, m)]);
      OpsElsewhere(c.apply, sent, ops);
    }
  }

  lemma {:induction false} PositionDecides(apply: Apply, a: Copy, b: Copy, ops: seq<WireOp>)
    requires Position(a) == Position(b) && Position(a).Some?
    ensures Position(ReceiveOps(apply, a, ops)) == Position(ReceiveOps(apply, b, ops))
    ensures ReceiveOps(apply, a, ops) == Gap <==> ReceiveOps(apply, b, ops) == Gap
    ensures Position(ReceiveOps(apply, a, ops)).None? ==> ReceiveOps(apply, a, ops) == Gap
  {
    if ops != [] { PositionDecides(apply, a, b, ops[..|ops| - 1]); }
  }

  /** Also where a reset was awaited: a gap opens exactly when the peer is not where downstream is. */
  lemma SwitchOffOpensGapIfBehind(c: Config, s: St, h: nat, m: Member, ops: seq<WireOp>)
    requires Good(c, s, h, m) && IsRelay(s, h) && s.served[h].wanted && h !in s.cut
    requires ops != [] && CopyIn(c, s.inbox + [State(h, m, Ops(ops))], h, m) != Gap
    ensures var t := RelayWant(s, h, false);
      CopyIn(c, t.wire + [State(h, m, Ops(ops))], h, m) == Gap <==>
        Position(CopyIn(c, s.wire, h, m)) != Position(CopyIn(c, s.inbox, h, m))
  {
    hide Good, CopyOf;
    var f := State(h, m, Ops(ops));
    var t := RelayWant(s, h, false);
    CopyOfPush(c.apply, s.inbox, f, h, m);
    CopyOfPush(c.apply, t.wire, f, h, m);
    var (sent, got) := (CopyIn(c, s.wire, h, m), CopyIn(c, s.inbox, h, m));
    OpsAdvance(c.apply, got, ops);
    if Position(sent) == Position(got) {
      PositionDecides(c.apply, sent, got, ops);
    } else {
      OpsElsewhere(c.apply, sent, ops);
    }
  }

  lemma RelayAsIs(c: Config, s: St, h: nat, m: Member)
    requires Good(c, s, h, m) && IsRelay(s, h) && h !in s.cut && !Awaits(s, h, m)
    ensures View(c, s, h, m) == CopyIn(c, s.inbox, h, m) && CopyIn(c, s.wire, h, m) != Gap
    ensures HasSlot(s, h, m) ==> s.waiting.slots[StateKey(h, m)].StateSlot? && CopyIn(c, s.wire, h, m) != Nothing
  {
  }

  /** What waits takes the peer elsewhere. */
  lemma SlotMoves(c: Config, sent: Copy, slot: Slot)
    requires slot.StateSlot? && (slot.base.Some? || slot.ops != []) && sent != Gap && sent != Nothing
    requires slot.base.Some? ==>
      !slot.base.value.Ops? && (Position(sent).Some? ==> Position(sent).value.0 != slot.base.value.session)
    requires WithSlot(c, sent, slot) != Gap
    ensures Position(WithSlot(c, sent, slot)) != Position(sent)
  {
    var based := if slot.base.Some? then Receive(c.apply, sent, slot.base.value) else sent;
    if slot.ops != [] { OpsAdvance(c.apply, based, slot.ops); }
  }

  /** A link with a window of one byte, every frame one byte. */
  ghost predicate OneByte(c: Config) {
    c.window == Some(1) && c.cap.None? && forall f :: c.frameSize(f) == 1
  }

  const MEMBER := "m"

  function OpsFrame(index: nat, op: Op): Frame { State(0, MEMBER, Ops([WireOp(0, index, op)])) }

  /** The window is full when the snapshot went out and the first op waits; the peer switches state off and on. */
  function Toggling(v: Value, a: Op, b: Op): seq<Event> {
    [Hello(true), SendOther(0), HoldRelay(0, true, false), FromDown(Shape(0, [MEMBER])),
     FromDown(State(0, MEMBER, Snap(v, 0))), FromDown(OpsFrame(0, a)),
     Want(0, false), Want(0, true), FromDown(OpsFrame(1, b)), Ack(3)]
  }

  /** A state of the relay's link end: one relayed hold, and the rest as these runs leave it. */
  function Relaying(window: Window, waiting: Waiting, shaped: bool, wanted: bool, urgent: set<Member>,
                    wire: seq<Frame>, inbox: seq<Frame>, cut: set<nat>): St
  {
    St(window, waiting, map[0 := Relay(false, wanted, false, shaped, urgent, {})], 0, false, map[], map[], wire,
        inbox, [], {0}, cut)
  }

  const EMPTY := Waiting([], map[], 0)
  const KEY := StateKey(0, MEMBER)

  function Slotted(c: Config, index: nat, op: Op): Waiting {
    var ops := [WireOp(0, index, op)];
    Waiting([KEY], map[KEY := StateSlot(None, ops, c.opsSize(ops), false, Resync)], c.opsSize(ops))
  }

  const FULL := Window(Some(true), 3, 0, [1, 1, 1], 3)

  function Sent(v: Value): seq<Frame> { [Other(0), Shape(0, [MEMBER]), State(0, MEMBER, Snap(v, 0))] }

  function Got(v: Value): seq<Frame> { [Shape(0, [MEMBER]), State(0, MEMBER, Snap(v, 0))] }

  function Shaped(): St {
    Relaying(Window(Some(true), 2, 0, [1, 1], 2), EMPTY, true, true, {MEMBER}, [Other(0), Shape(0, [MEMBER])],
        [Shape(0, [MEMBER])], {})
  }

  function Snapped(v: Value): St { Relaying(FULL, EMPTY, true, true, {}, Sent(v), Got(v), {}) }

  lemma Opening(c: Config)
    requires OneByte(c)
    ensures Step(c, Step(c, Step(c, Init, Hello(true)), SendOther(0)), HoldRelay(0, true, false))
      == Relaying(Window(Some(true), 1, 0, [1], 1), EMPTY, false, true, {}, [Other(0)], [], {})
  {
  }

  lemma Shaping(c: Config)
    requires OneByte(c)
    ensures Step(c, Relaying(Window(Some(true), 1, 0, [1], 1), EMPTY, false, true, {}, [Other(0)], [], {}),
      FromDown(Shape(0, [MEMBER])))
      == Shaped()
  {
    assert Members([MEMBER]) == {MEMBER};
    assert [Other(0)] + [Shape(0, [MEMBER])] == [Other(0), Shape(0, [MEMBER])] && [1] + [1] == [1, 1];
    assert [] + [Shape(0, [MEMBER])] == [Shape(0, [MEMBER])];
  }

  lemma Snapping(c: Config, v: Value)
    requires OneByte(c)
    ensures Step(c, Shaped(), FromDown(State(0, MEMBER, Snap(v, 0)))) == Snapped(v)
  {
    var s := Shaped();
    var snap := State(0, MEMBER, Snap(v, 0));
    var next := Step(c, s, FromDown(snap));
    assert {MEMBER} - {MEMBER} == {} && {} - {MEMBER} == {} && [1, 1] + [1] == [1, 1, 1];
    assert next == RelayState(c, s, 0, MEMBER, Snap(v, 0));
    assert s.served[0].urgent == {MEMBER} && s.served[0].awaiting == {};
    assert next.served == map[0 := Relay(false, true, false, true, {}, {})];
    assert next.window == FULL;
    assert next.wire == Sent(v) && next.inbox == Got(v);
    assert next == s.(window := next.window, served := next.served, wire := next.wire, inbox := next.inbox);
    assert Snapped(v) == s.(window := FULL, served := Snapped(v).served, wire := Sent(v), inbox := Got(v));
    assert Snapped(v).served == next.served;
    assert next.window == Snapped(v).window && next.wire == Snapped(v).wire && next.inbox == Snapped(v).inbox;
    assert next == Snapped(v);
  }

  /** Ops that meet a full window and no slot get a slot of their own. */
  lemma OpsWait(c: Config, v: Value, index: nat, op: Op, wire: seq<Frame>, inbox: seq<Frame>, cut: set<nat>)
    requires OneByte(c)
    ensures Step(c, Relaying(FULL, EMPTY, true, true, {}, wire, inbox, cut), FromDown(OpsFrame(index, op)))
      == Relaying(FULL, Slotted(c, index, op), true, true, {}, wire, inbox + [OpsFrame(index, op)], cut)
  {
    var s := Relaying(FULL, EMPTY, true, true, {}, wire, inbox, cut);
    var ops := [WireOp(0, index, op)];
    var put := Put(EMPTY, KEY, StateSlot(None, [], 0, false, Resync));
    assert put == Waiting([KEY], map[KEY := StateSlot(None, [], 0, false, Resync)], 0);
    assert Put(put, KEY, StateSlot(None, ops, c.opsSize(ops), false, Resync)) == Slotted(c, index, op);
    assert [] + ops == ops && {} - {MEMBER} == {};
    var next := Step(c, s, FromDown(OpsFrame(index, op)));
    assert next.served == s.served && next.inbox == inbox + [OpsFrame(index, op)];
    assert next.waiting == Slotted(c, index, op);
    assert next == s.(waiting := next.waiting, served := next.served, inbox := next.inbox);
  }

  lemma SwitchingOff(c: Config, v: Value, index: nat, op: Op, wire: seq<Frame>, inbox: seq<Frame>)
    ensures Step(c, Relaying(FULL, Slotted(c, index, op), true, true, {}, wire, inbox, {}), Want(0, false))
      == Relaying(FULL, EMPTY, true, false, {}, wire, inbox, {0})
  {
    var w := Slotted(c, index, op);
    assert HoldKeys(w, 0) == {KEY};
    assert Without(w.order, {KEY}) == [];
    assert w.slots - {KEY} == map[];
    assert Bytes(w.order, w.slots) == w.bytes by { assert w.order[1..] == []; }
  }

  lemma SwitchingOn(c: Config, wire: seq<Frame>, inbox: seq<Frame>)
    ensures Step(c, Relaying(FULL, EMPTY, true, false, {}, wire, inbox, {0}), Want(0, true))
      == Relaying(FULL, EMPTY, true, true, {}, wire, inbox, {0})
  {
  }

  lemma Flushing(c: Config, index: nat, op: Op, wire: seq<Frame>, inbox: seq<Frame>)
    requires OneByte(c)
    ensures Step(c, Relaying(FULL, Slotted(c, index, op), true, true, {}, wire, inbox, {0}), Ack(3)).wire ==
      wire + [OpsFrame(index, op)]
    ensures Step(c, Relaying(FULL, Slotted(c, index, op), true, true, {}, wire, inbox, {0}), Ack(3)).inbox == inbox
    ensures 0 in Step(c, Relaying(FULL, Slotted(c, index, op), true, true, {}, wire, inbox, {0}), Ack(3)).cut
  {
    var s := Relaying(FULL, Slotted(c, index, op), true, true, {}, wire, inbox, {0});
    assert s.window.unacked[..3] == [1, 1, 1] && s.window.unacked[3..] == [];
    assert [1, 1, 1][1..] == [1, 1] && [1, 1][1..] == [1] && [1][1..] == [];
    assert Sum([1]) == 1 && Sum([1, 1]) == 2 && Sum([1, 1, 1]) == 3;
    var acked := s.(window := Acknowledge(s.window, 3));
    assert acked.window == Window(Some(true), 3, 3, [], 0);
    var popped := acked.(waiting := Pop(acked.waiting));
    assert popped.waiting.order == [];
    var sent := SendSlot(c, popped, KEY, acked.waiting.slots[KEY]);
    assert sent.wire == wire + [OpsFrame(index, op)] && sent.waiting == popped.waiting;
    assert Flush(c, acked) == Flush(c, sent) && Flush(c, sent) == sent;
  }

  lemma RunPush(c: Config, events: seq<Event>, n: nat)
    requires n < |events|
    ensures Run(c, Init, events[..n + 1]) == Step(c, Run(c, Init, events[..n]), events[n])
  {
    assert events[..n + 1][..n] == events[..n];
  }

  /** The run, event by event. */
  lemma TogglingRun(c: Config, v: Value, a: Op, b: Op)
    requires OneByte(c)
    ensures var s := Run(c, Init, Toggling(v, a, b));
      && s.wire == Sent(v) + [OpsFrame(1, b)]
      && s.inbox == Got(v) + [OpsFrame(0, a)] + [OpsFrame(1, b)]
      && 0 in s.cut
  {
    hide Step, Relaying;
    assert Snapped(v) == Relaying(FULL, EMPTY, true, true, {}, Sent(v), Got(v), {});
    var events := Toggling(v, a, b);
    assert events[..0] == [] && events[..10] == events;
    RunPush(c, events, 0);
    RunPush(c, events, 1);
    RunPush(c, events, 2);
    Opening(c);
    RunPush(c, events, 3);
    Shaping(c);
    RunPush(c, events, 4);
    Snapping(c, v);
    RunPush(c, events, 5);
    OpsWait(c, v, 0, a, Sent(v), Got(v), {});
    RunPush(c, events, 6);
    SwitchingOff(c, v, 0, a, Sent(v), Got(v) + [OpsFrame(0, a)]);
    RunPush(c, events, 7);
    SwitchingOn(c, Sent(v), Got(v) + [OpsFrame(0, a)]);
    RunPush(c, events, 8);
    OpsWait(c, v, 1, b, Sent(v), Got(v) + [OpsFrame(0, a)], {0});
    RunPush(c, events, 9);
    Flushing(c, 1, b, Sent(v), Got(v) + [OpsFrame(0, a)] + [OpsFrame(1, b)]);
  }

  lemma OneOp(apply: Apply, copy: Copy, op: WireOp)
    ensures ReceiveOps(apply, copy, [op]) == ReceiveOp(apply, copy, op)
  {
    assert [op][..0] == [];
  }

  lemma AfterSnapshot(apply: Apply, v: Value)
    ensures CopyOf(apply, Got(v), 0, MEMBER) == Copy(v, 0, 0) && CopyOf(apply, Sent(v), 0, MEMBER) == Copy(v, 0, 0)
  {
    var shape, snap := Shape(0, [MEMBER]), State(0, MEMBER, Snap(v, 0));
    CopyOfPush(apply, [], shape, 0, MEMBER);
    CopyOfPush(apply, [shape], snap, 0, MEMBER);
    CopyOfPush(apply, [], Other(0), 0, MEMBER);
    CopyOfPush(apply, [Other(0)], shape, 0, MEMBER);
    CopyOfPush(apply, [Other(0), shape], snap, 0, MEMBER);
    assert [] + [shape] == [shape] && [shape] + [snap] == Got(v);
    assert [] + [Other(0)] == [Other(0)] && [Other(0)] + [shape] == [Other(0), shape] && [Other(0), shape] + [snap] ==
      Sent(v);
    assert CopyOf(apply, [shape], 0, MEMBER) == Empty;
    assert CopyOf(apply, [Other(0)], 0, MEMBER) == Nothing && CopyOf(apply, [Other(0), shape], 0, MEMBER) == Empty;
  }

  lemma DownstreamHasNoGap(c: Config, v: Value, a: Op, b: Op)
    ensures CopyIn(c, Got(v) + [OpsFrame(0, a)] + [OpsFrame(1, b)], 0, MEMBER) == Copy(c.apply(c.apply(v, a), b), 0, 2)
  {
    hide Got, CopyOf;
    AfterSnapshot(c.apply, v);
    CopyOfPush(c.apply, Got(v), OpsFrame(0, a), 0, MEMBER);
    CopyOfPush(c.apply, Got(v) + [OpsFrame(0, a)], OpsFrame(1, b), 0, MEMBER);
    OneOp(c.apply, Copy(v, 0, 0), WireOp(0, 0, a));
    OneOp(c.apply, Copy(c.apply(v, a), 0, 1), WireOp(0, 1, b));
    hide ReceiveOps;
  }

  lemma SentHasAGap(c: Config, v: Value, b: Op)
    ensures CopyIn(c, Sent(v) + [OpsFrame(1, b)], 0, MEMBER) == Gap
  {
    hide Sent, CopyOf;
    AfterSnapshot(c.apply, v);
    CopyOfPush(c.apply, Sent(v), OpsFrame(1, b), 0, MEMBER);
    OneOp(c.apply, Copy(v, 0, 0), WireOp(0, 1, b));
  }

  /** What came from downstream has no gap; what the relay sent on has one. */
  lemma TogglingOpensGap(c: Config, v: Value, a: Op, b: Op)
    requires OneByte(c)
    ensures var s := Run(c, Init, Toggling(v, a, b));
      && CopyIn(c, s.inbox, 0, MEMBER) == Copy(c.apply(c.apply(v, a), b), 0, 2)
      && CopyIn(c, s.wire, 0, MEMBER) == Gap
  {
    hide *;
    TogglingRun(c, v, a, b);
    DownstreamHasNoGap(c, v, a, b);
    SentHasAGap(c, v, b);
  }
}

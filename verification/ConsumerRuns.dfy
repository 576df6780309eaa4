/**
 * What a consumer holds of a hold served over a link: in every run, each base of a stream starts a session of its own,
 * so the consumer is in step with the member's feed exactly while its last base was no error. Of a relayed stream the
 * sessions are some of those that came in, which `RelayChain` carries from hop to hop.
 */
module ConsumerRuns {
  import opened Streams
  import opened Flow
  import opened FlowAccounting
  import opened FlowStreams
  import opened Consumers

  // --- sessions are numbered ---

  function SlotStarts(s: St, h: nat, m: Member): seq<nat> {
    var k := StateKey(h, m);
    if k in s.waiting.slots && s.waiting.slots[k].StateSlot? then BaseStarts(s.waiting.slots[k].base) else []
  }

  function BaseStarts(base: Option<Body>): seq<nat> {
    if base.Some? && !base.value.Ops? then [base.value.session] else []
  }

  /** Rising, and below `bound`. */
  predicate Rising(starts: seq<nat>, bound: nat) {
    && (forall i | 0 <= i < |starts| :: starts[i] < bound)
    && (forall i, j | 0 <= i < j < |starts| :: starts[i] < starts[j])
  }

  /** `a` is `b` with some elements left out. */
  predicate Among(a: seq<nat>, b: seq<nat>)
    decreases |b|
  {
    a == [] ||
    (b != [] &&
     (Among(a, b[..|b| - 1]) || (a[|a| - 1] == b[|b| - 1] && Among(a[..|a| - 1], b[..|b| - 1]))))
  }

  /** The sessions of all bases of the stream, sent and then waiting. */
  function AllStarts(s: St, h: nat, m: Member): seq<nat> {
    Starts(s.wire, h, m) + SlotStarts(s, h, m)
  }

  /**
   * The bases of a served stream start rising sessions that were all handed out; those of a relayed one are some of
   * those that came in, in their order.
   */
  predicate Numbered(s: St, h: nat, m: Member) {
    && (IsLocal(s, h) ==> Rising(AllStarts(s, h, m), s.nextSession))
    && (IsRelay(s, h) ==> Among(AllStarts(s, h, m), Starts(s.inbox, h, m)))
  }

  /** As far as the bases of stream (h, m) go, nothing happened, or what waited was given up. */
  predicate NoStart(s: St, t: St, h: nat, m: Member) {
    && (IsLocal(t, h) ==> IsLocal(s, h)) && (IsRelay(t, h) ==> IsRelay(s, h))
    && s.nextSession <= t.nextSession
    && Starts(t.wire, h, m) == Starts(s.wire, h, m) && Starts(t.inbox, h, m) == Starts(s.inbox, h, m)
    && (SlotStarts(t, h, m) == SlotStarts(s, h, m) || SlotStarts(t, h, m) == [])
  }

  lemma NoStartNumbered(s: St, t: St, h: nat, m: Member)
    requires Numbered(s, h, m) && NoStart(s, t, h, m)
    ensures Numbered(t, h, m)
  {
    hide Starts, Among;
    var (a, b) := (AllStarts(s, h, m), AllStarts(t, h, m));
    assert forall i | 0 <= i < |b| :: b[i] == a[i];
    if IsRelay(t, h) && a != b { AmongPrefix(Starts(s.wire, h, m), SlotStarts(s, h, m), Starts(s.inbox, h, m)); }
    assert Starts(t.wire, h, m) + [] == Starts(t.wire, h, m);
  }

  /** Leaving out more: the last ones. */
  lemma {:induction false} AmongPrefix(a: seq<nat>, w: seq<nat>, b: seq<nat>)
    requires Among(a + w, b) && |w| <= 1
    ensures Among(a, b)
    decreases |b|
  {
    if w == [] {
      assert a + w == a;
    } else {
      var init := b[..|b| - 1];
      assert (a + w)[..|a + w| - 1] == a;
      if Among(a + w, init) { AmongPrefix(a, w, init); }
    }
  }

  /** One more arrives, and passes in place of what waited. */
  lemma AmongPush(a: seq<nat>, w: seq<nat>, b: seq<nat>, x: nat)
    requires Among(a + w, b) && |w| <= 1
    ensures Among(a + [x], b + [x])
  {
    AmongPrefix(a, w, b);
    assert (a + [x])[..|a|] == a && (b + [x])[..|b|] == b;
  }

  lemma {:induction false} AmongElements(a: seq<nat>, b: seq<nat>)
    requires Among(a, b)
    ensures forall x | x in a :: x in b
    decreases |b|
  {
    if a != [] {
      var (x, y) := (a[..|a| - 1], b[..|b| - 1]);
      if Among(a, y) {
        AmongElements(a, y);
      } else {
        AmongElements(x, y);
        assert a == x + [a[|a| - 1]];
      }
    }
  }

  /** What is left of distinct ones is distinct. */
  lemma {:induction false} AmongDistinct(a: seq<nat>, b: seq<nat>)
    requires Among(a, b) && Consumers.Distinct(b)
    ensures Consumers.Distinct(a)
    decreases |b|
  {
    if a != [] {
      var (x, y) := (a[..|a| - 1], b[..|b| - 1]);
      if Among(a, y) {
        AmongDistinct(a, y);
      } else {
        AmongDistinct(x, y);
        AmongElements(x, y);
        assert forall i | 0 <= i < |x| :: x[i] == a[i] && x[i] in x;
      }
    }
  }

  function FrameStarts(f: Frame, h: nat, m: Member): seq<nat> {
    if IsState(f, h, m) && !f.body.Ops? then [f.body.session] else []
  }

  lemma StartsPush(frames: seq<Frame>, f: Frame, h: nat, m: Member)
    ensures Starts(frames + [f], h, m) == Starts(frames, h, m) + FrameStarts(f, h, m)
  {
    assert (frames + [f])[..|frames + [f]| - 1] == frames;
  }

  lemma {:induction false} StartsAppend(a: seq<Frame>, b: seq<Frame>, h: nat, m: Member)
    ensures Starts(a + b, h, m) == Starts(a, h, m) + Starts(b, h, m)
  {
    if b == [] {
      assert a + b == a;
    } else {
      var init, last := b[..|b| - 1], b[|b| - 1];
      StartsAppend(a, init, h, m);
      assert a + b == (a + init) + [last] && init + [last] == b;
      StartsPush(a + init, last, h, m);
    }
  }

  // --- making room, sending, keeping ---

  lemma DropNoStart(s: St, k: Key, h: nat, m: Member)
    ensures NoStart(s, Drop(s, k), h, m) && Drop(s, k).wire == s.wire
    ensures Drop(s, k).nextSession == s.nextSession && (IsLocal(s, h) <==> IsLocal(Drop(s, k), h))
  {
    hide Without, Bytes, Starts;
  }

  lemma {:induction false} MakeRoomNoStart(c: Config, s: St, todo: seq<Key>, size: nat, current: Key, h: nat, m: Member)
    ensures NoStart(s, MakeRoom(c, s, todo, size, current), h, m)
    decreases |todo|
  {
    hide Drop;
    if Fits(c, s.waiting, size) {
    } else if todo == [] {
      DropNoStart(s, current, h, m);
    } else {
      DropNoStart(s, todo[0], h, m);
      var t := if todo[0] != current && SlotSize(s.waiting.slots, todo[0]) > 0 then Drop(s, todo[0]) else s;
      MakeRoomNoStart(c, t, todo[1..], size, current, h, m);
    }
  }

  lemma AppendNoStart(c: Config, s: St, k: Key, ops: seq<WireOp>, h: nat, m: Member)
    ensures NoStart(s, Append(c, s, k, ops), h, m)
  {
    hide MakeRoom, Bytes, Without;
    MakeRoomNoStart(c, s, s.waiting.order, c.opsSize(ops), k, h, m);
  }

  lemma SendNoStart(c: Config, s: St, f: Frame, h: nat, m: Member)
    ensures var t := Send(c, s, f);
      t.served == s.served && t.nextSession == s.nextSession && t.waiting == s.waiting && t.inbox == s.inbox &&
      Starts(t.wire, h, m) == Starts(s.wire, h, m) + FrameStarts(f, h, m)
  {
    StartsPush(s.wire, f, h, m);
  }

  /** A state frame of another stream, or ops. */
  lemma SendStateNoStart(c: Config, s: St, hold: nat, name: Member, body: Body, overflow: Overflow, h: nat, m: Member)
    requires (h, m) != (hold, name) || body.Ops?
    ensures NoStart(s, SendState(c, s, hold, name, body, overflow), h, m)
  {
    hide Append, Bytes, Without, Starts;
    var k := StateKey(hold, name);
    if k !in s.waiting.slots && !Full(c, s) {
      SendNoStart(c, s, State(hold, name, body), h, m);
    } else if body.Ops? {
      var w := if k in s.waiting.slots then s.waiting else Put(s.waiting, k, StateSlot(None, [], 0, false, overflow));
      AppendNoStart(c, s.(waiting := w), k, body.ops, h, m);
    }
  }

  /** A base takes the place of what waited, or goes out after what was sent. */
  lemma SendBaseStarts(c: Config, s: St, h: nat, m: Member, body: Body, overflow: Overflow)
    requires !body.Ops? && (HasSlot(s, h, m) ==> s.waiting.slots[StateKey(h, m)].StateSlot?)
    ensures var t := SendState(c, s, h, m, body, overflow);
      && AllStarts(t, h, m) == Starts(s.wire, h, m) + [body.session]
      && t.served == s.served && t.nextSession == s.nextSession && t.inbox == s.inbox
  {
    hide Starts, Count;
    SendNoStart(c, s, State(h, m, body), h, m);
    assert Starts(s.wire, h, m) + [body.session] + [] == Starts(s.wire, h, m) + [body.session];
  }

  /** A base with a session of its own. */
  lemma SendBaseNumbered(c: Config, s: St, h: nat, m: Member, body: Body, overflow: Overflow)
    requires !body.Ops? && body.session < s.nextSession && IsLocal(s, h)
    requires Rising(AllStarts(s, h, m), body.session)
    requires HasSlot(s, h, m) ==> s.waiting.slots[StateKey(h, m)].StateSlot?
    ensures Numbered(SendState(c, s, h, m, body, overflow), h, m)
  {
    hide Starts, SendState, SlotStarts;
    SendBaseStarts(c, s, h, m, body, overflow);
    var sent := Starts(s.wire, h, m);
    assert forall i | 0 <= i < |sent| :: sent[i] == AllStarts(s, h, m)[i];
  }

  // --- units, resends, flushing ---

  lemma {:induction false} AttachAllServes(c: Config, s: St, hold: nat, listed: seq<Member>, h: nat)
    ensures var t := AttachAll(c, s, hold, listed).0;
      (IsLocal(t, h) <==> IsLocal(s, h)) && (IsRelay(t, h) <==> IsRelay(s, h))
    decreases |listed|
  {
    if listed != [] {
      var t := if Attachable(s, hold, listed[0]) then Attach(c, s, hold, listed[0]) else s;
      AttachAllServes(c, t, hold, listed[1..], h);
    }
  }

  /** The snapshots of a unit start sessions that were not handed out before. */
  lemma {:induction false} AttachAllNumbered(c: Config, s: St, hold: nat, listed: seq<Member>, h: nat, m: Member)
    ensures var (t, snaps) := AttachAll(c, s, hold, listed);
      && s.nextSession <= t.nextSession
      && Rising(Starts(snaps, h, m), t.nextSession)
      && (forall x | x in Starts(snaps, h, m) :: s.nextSession <= x)
      && (h != hold || m !in listed ==> Starts(snaps, h, m) == [])
    decreases |listed|
  {
    if listed != [] {
      hide Starts, Rising;
      assert m in listed <==> m == listed[0] || m in listed[1..];
      if !Attachable(s, hold, listed[0]) {
        AttachAllNumbered(c, s, hold, listed[1..], h, m);
      } else {
        var f := State(hold, listed[0], Base(c, s.values[(hold, listed[0])], s.nextSession, false));
        var u := Attach(c, s, hold, listed[0]);
        AttachAllNumbered(c, u, hold, listed[1..], h, m);
        var (t, rest) := AttachAll(c, u, hold, listed[1..]);
        SnapshotFirst(f, rest, h, m, s.nextSession, t.nextSession);
      }
    } else {
      NoStarts(h, m);
    }
  }

  /** A snapshot before others, of an earlier session. */
  lemma SnapshotFirst(f: Frame, rest: seq<Frame>, h: nat, m: Member, session: nat, next: nat)
    requires f.State? && !f.body.Ops? && f.body.session == session < next
    requires Rising(Starts(rest, h, m), next) && forall x | x in Starts(rest, h, m) :: session < x
    ensures Rising(Starts([f] + rest, h, m), next) && forall x | x in Starts([f] + rest, h, m) :: session <= x
    ensures !IsState(f, h, m) ==> Starts([f] + rest, h, m) == Starts(rest, h, m)
  {
    hide Starts, Rising;
    StartsAppend([f], rest, h, m);
    StartsPush([], f, h, m);
    assert [] + [f] == [f];
    NoStarts(h, m);
    StartsRise(FrameStarts(f, h, m), Starts(rest, h, m), session, next);
    assert Starts([f], h, m) == FrameStarts(f, h, m);
  }

  lemma NoStarts(h: nat, m: Member)
    ensures Starts([], h, m) == []
    ensures forall bound :: Rising([], bound)
  {
  }

  lemma StartsRise(first: seq<nat>, rest: seq<nat>, session: nat, next: nat)
    requires first == [] || first == [session]
    requires session < next && Rising(rest, next) && forall x | x in rest :: session < x
    ensures Rising([] + first + rest, next) && forall x | x in first + rest :: session <= x
    ensures Rising(first + rest, next)
  {
    assert [] + first + rest == first + rest;
    assert forall i | 0 <= i < |rest| :: rest[i] in rest;
  }

  lemma SendUnitWire(c: Config, s: St, hold: nat)
    requires IsLocal(s, hold) && hold in s.shapes
    ensures var local := s.served[hold];
      var members := if local.wantsState then s.shapes[hold] else [];
      var u := s.(served := s.served[hold := local.(unitSent := true)]);
      var (v, snaps) := AttachAll(c, u, hold, Lacking(members, local.feeds));
      var t := SendUnit(c, s, hold);
      && t.wire == s.wire + [Shape(hold, Names(snaps))] + snaps && t.inbox == s.inbox
      && t.served == v.served && t.nextSession == v.nextSession
  {
    var t0 := s.(waiting := Discard(s.waiting, {UnitKey(hold)}));
    var local := s.served[hold];
    var members := if local.wantsState then s.shapes[hold] else [];
    var listed := Lacking(members, local.feeds);
    var u := s.(served := s.served[hold := local.(unitSent := true)]);
    var u' := t0.(served := t0.served[hold := local.(unitSent := true)]);
    AttachAllSame(c, u, u', hold, listed);
    AttachAllOrder(c, u', hold, listed);
    var (v, snaps) := AttachAll(c, u', hold, listed);
    SendAllOrder(c, Send(c, v, Shape(hold, Names(snaps))), snaps);
  }

  /** New bases follow the ones sent; while one waits there are none. */
  lemma UnitRises(sent: seq<nat>, waiting: seq<nat>, added: seq<nat>, bound: nat, next: nat)
    requires Rising(sent + waiting, bound) && bound <= next && Rising(added, next)
    requires forall x | x in added :: bound <= x
    requires waiting == [] || added == []
    ensures Rising(sent + added + waiting, next)
  {
    if added == [] {
      assert sent + added + waiting == sent + waiting;
    } else {
      assert sent + waiting == sent;
      assert sent + added + waiting == sent + added;
      assert forall i | 0 <= i < |added| :: added[i] in added;
    }
  }

  lemma SendUnitNumbered(c: Config, s: St, hold: nat, h: nat, m: Member)
    requires Numbered(s, h, m) && SlotOk(s, h, m)
    ensures Numbered(SendUnit(c, s, hold), h, m)
  {
    hide SendUnit, AttachAll, Starts, Rising, Among;
    SendUnitWaiting(c, s, hold);
    var t := SendUnit(c, s, hold);
    SameStateSlot(s, t, UnitKey(hold), h, m);
    if IsLocal(s, hold) && hold in s.shapes {
      var local := s.served[hold];
      var members := if local.wantsState then s.shapes[hold] else [];
      var listed := Lacking(members, local.feeds);
      var u := s.(served := s.served[hold := local.(unitSent := true)]);
      AttachAllNumbered(c, u, hold, listed, h, m);
      AttachAllServes(c, u, hold, listed, h);
      LackingElements(members, local.feeds);
      SendUnitWire(c, s, hold);
      var snaps := AttachAll(c, u, hold, listed).1;
      var f := Shape(hold, Names(snaps));
      StartsPush(s.wire, f, h, m);
      StartsAppend(s.wire + [f], snaps, h, m);
      if IsLocal(t, h) {
        assert IsLocal(u, h) && IsLocal(s, h);
        assert Starts(s.wire + [f], h, m) == Starts(s.wire, h, m);
        UnitRises(Starts(s.wire, h, m), SlotStarts(s, h, m), Starts(snaps, h, m), s.nextSession, t.nextSession);
      } else if IsRelay(t, h) {
        assert Starts(t.wire, h, m) == Starts(s.wire, h, m) + [] + [] == Starts(s.wire, h, m);
      }
    } else {
      NoUnit(c, s, hold);
    }
  }

  lemma SameStateSlot(s: St, t: St, k: Key, h: nat, m: Member)
    requires t.waiting == Discard(s.waiting, {k}) && k.UnitKey?
    ensures SlotStarts(t, h, m) == SlotStarts(s, h, m)
  {
  }

  lemma ResendNumbered(c: Config, s: St, hold: nat, name: Member, h: nat, m: Member)
    requires Numbered(s, h, m) && (h, m) == (hold, name) ==> SlotStarts(s, h, m) == []
    requires Numbered(s, h, m)
    ensures Numbered(ResendNow(c, s, hold, name), h, m)
  {
    hide Starts, Rising, Among;
    if HasFeed(s, hold, name) && (hold, name) in s.values {
      var f := State(hold, name, Base(c, s.values[(hold, name)], s.nextSession, true));
      StartsPush(s.wire, f, h, m);
      var t := ResendNow(c, s, hold, name);
      assert t.wire == s.wire + [f] && t.waiting == s.waiting && t.nextSession == s.nextSession + 1;
      if IsLocal(t, h) {
        UnitRises(Starts(s.wire, h, m), SlotStarts(s, h, m), FrameStarts(f, h, m), s.nextSession, t.nextSession);
      } else {
        assert Starts(t.wire, h, m) == Starts(s.wire, h, m) + [] == Starts(s.wire, h, m);
      }
    }
  }

  /** A slot taken off the queue, and what it holds sent. */
  lemma SendSlotNumbered(c: Config, s: St, h: nat, m: Member)
    requires Numbered(s, h, m) && Good(c, s, h, m) && Ordered(s.waiting) && Flushable(s.waiting)
    ensures var k := s.waiting.order[0];
      Numbered(SendSlot(c, s.(waiting := Pop(s.waiting)), k, s.waiting.slots[k]), h, m)
  {
    var k := s.waiting.order[0];
    var t := s.(waiting := Pop(s.waiting));
    var slot := s.waiting.slots[k];
    match slot
    case UnitSlot =>
      assert SlotStarts(t, h, m) == SlotStarts(s, h, m);
      SendUnitNumbered(c, t, k.hold, h, m);
    case StateSlot(base, ops, _, lazy, overflow) =>
      if lazy {
        assert NoStart(s, t, h, m);
        NoStartNumbered(s, t, h, m);
        ResendNumbered(c, t, k.hold, k.m, h, m);
      } else {
        SlotSent(c, s, h, m);
      }
  }

  lemma SlotSent(c: Config, s: St, h: nat, m: Member)
    requires Numbered(s, h, m) && Flushable(s.waiting)
    requires var k := s.waiting.order[0]; s.waiting.slots[k].StateSlot? && !s.waiting.slots[k].lazy
    ensures var k := s.waiting.order[0];
      Numbered(SendSlot(c, s.(waiting := Pop(s.waiting)), k, s.waiting.slots[k]), h, m)
  {
    hide Starts, Among, Rising, SendSlot;
    var k := s.waiting.order[0];
    var t := s.(waiting := Pop(s.waiting));
    SlotFramesStart(c, t, k, s.waiting.slots[k], h, m);
    assert AllStarts(SendSlot(c, t, k, s.waiting.slots[k]), h, m) == AllStarts(s, h, m);
  }

  /** The frames of a slot start what its base starts. */
  lemma SlotFramesStart(c: Config, s: St, k: Key, slot: Slot, h: nat, m: Member)
    requires k.StateKey? && slot.StateSlot? && !slot.lazy
    ensures var t := SendSlot(c, s, k, slot);
      && t.served == s.served && t.nextSession == s.nextSession && t.waiting == s.waiting && t.inbox == s.inbox
      && Starts(t.wire, h, m) ==
           Starts(s.wire, h, m) + (if k == StateKey(h, m) then BaseStarts(slot.base) else [])
  {
    hide Starts, Count;
    var u := if slot.base.Some? then Send(c, s, State(k.hold, k.m, slot.base.value)) else s;
    if slot.base.Some? { SendNoStart(c, s, State(k.hold, k.m, slot.base.value), h, m); }
    if slot.ops != [] { SendNoStart(c, u, State(k.hold, k.m, Ops(slot.ops)), h, m); }
  }

  lemma {:induction false} FlushNumbered(c: Config, s: St, h: nat, m: Member)
    requires Numbered(s, h, m) && Good(c, s, h, m) && Accounted(c, s)
    ensures Numbered(Flush(c, s), h, m)
    decreases |s.waiting.order|
  {
    hide Good, Numbered, SendSlot;
    if s.waiting.order != [] { PopTidy(c, s.waiting); }
    if Flushable(s.waiting) && !Full(c, s) {
      var k := s.waiting.order[0];
      var t := s.(waiting := Pop(s.waiting));
      var u := SendSlot(c, t, k, s.waiting.slots[k]);
      SendSlotNumbered(c, s, h, m);
      SendSlotAccounted(c, t, k, s.waiting.slots[k]);
      SendSlotWaiting(c, t, k, s.waiting.slots[k]);
      if k == StateKey(h, m) {
        SendSlotOwn(c, s, h, m);
      } else {
        PopGood(c, s, h, m);
        SendSlotOther(c, t, k, s.waiting.slots[k], h, m);
      }
      FlushNumbered(c, u, h, m);
    }
  }

  lemma PopGood(c: Config, s: St, h: nat, m: Member)
    requires Good(c, s, h, m) && s.waiting.order != [] && s.waiting.order[0] != StateKey(h, m)
    ensures Good(c, s.(waiting := Pop(s.waiting)), h, m)
  {
    KeptGood(c, s, s.(waiting := Pop(s.waiting)), h, m);
  }

  // --- every event ---

  lemma QueueUnitNumbered(c: Config, s: St, hold: nat, h: nat, m: Member)
    requires Numbered(s, h, m) && Good(c, s, h, m) && Accounted(c, s)
    ensures Numbered(QueueUnit(c, s, hold), h, m)
  {
    hide Flush;
    var k := UnitKey(hold);
    var t := if k in s.waiting.slots then s else s.(waiting := Put(s.waiting, k, UnitSlot));
    NoStartNumbered(s, t, h, m);
    PutOrdered(s.waiting, k, UnitSlot);
    PutKept(c, s, s.waiting, k, h, m);
    KeptGood(c, s, t, h, m);
    FlushNumbered(c, t, h, m);
  }

  lemma UnitNumbered(c: Config, s: St, hold: nat, h: nat, m: Member)
    requires Numbered(s, h, m) && Good(c, s, h, m) && Accounted(c, s)
    ensures Numbered(Unit(c, s, hold), h, m)
  {
    hide SendUnit, QueueUnit, Tidy, Counted, Bytes, Without;
    if IsLocal(s, hold) && hold in s.shapes {
      var local := s.served[hold];
      var members := if local.wantsState then Members(s.shapes[hold]) else {};
      var left := local.feeds.Keys - members;
      var keys := set m | m in left :: StateKey(hold, m);
      var t := s.(waiting := Discard(s.waiting, keys), served := s.served[hold := local.(feeds := local.feeds - left)]);
      DiscardTidy(c, s.waiting, keys);
      LeftGood(c, s, hold, h, m);
      NoStartNumbered(s, t, h, m);
      if local.feeds.Keys <= left && !(local.again && !local.unitSent) {
        SendUnitNumbered(c, t, hold, h, m);
      } else {
        QueueUnitNumbered(c, t, hold, h, m);
      }
    }
  }

  lemma ResetLaterNumbered(c: Config, s: St, hold: nat, name: Member, h: nat, m: Member)
    requires Numbered(s, h, m) && Good(c, s, h, m) && Accounted(c, s) && HasFeed(s, hold, name)
    ensures Numbered(ResetLater(c, s, hold, name), h, m)
  {
    hide Flush;
    var k := StateKey(hold, name);
    if !(k in s.waiting.slots && s.waiting.slots[k].UnitSlot?) {
      var overflow := if k in s.waiting.slots then s.waiting.slots[k].overflow else Resend;
      var t := s.(waiting := Put(s.waiting, k, LazySlot.(overflow := overflow)));
      PutOrdered(s.waiting, k, LazySlot.(overflow := overflow));
      LazyGood(c, s, hold, name, h, m);
      NoStartNumbered(s, t, h, m);
      FlushNumbered(c, t, h, m);
    }
  }

  lemma FeedNumbered(c: Config, s: St, e: Event, h: nat, m: Member)
    requires Numbered(s, h, m) && SlotOk(s, h, m) && !s.closed && (e.SourceOps? || e.SourceReset?)
    ensures Numbered(Step(c, s, e), h, m)
  {
    hide SendState, Starts;
    if HasFeed(s, e.hold, e.m) {
      if e.SourceOps? {
        var feed := s.served[e.hold].feeds[e.m];
        var told := feed.(next := feed.next + |e.opsOf|, seen := ApplyAll(c.apply, feed.seen, e.opsOf));
        var t := Tell(s, e.hold, e.m, told);
        NoStartNumbered(s, t, h, m);
        SendStateNoStart(c, t, e.hold, e.m, Ops(Encode(feed.session, feed.next, e.opsOf)), Resend, h, m);
        NoStartNumbered(t, Step(c, s, e), h, m);
      } else {
        var t := Tell(s, e.hold, e.m, Feed(s.nextSession, 0, e.to, !c.valid(e.to))).(nextSession := s.nextSession + 1);
        var body := Base(c, e.to, s.nextSession, true);
        if (h, m) == (e.hold, e.m) {
          SendBaseNumbered(c, t, h, m, body, Resend);
        } else {
          NoStartNumbered(s, t, h, m);
          SendStateNoStart(c, t, e.hold, e.m, body, Resend, h, m);
          NoStartNumbered(t, Step(c, s, e), h, m);
        }
      }
    }
  }

  /** A base that comes in for the stream passes in place of what waited; ops start nothing. */
  lemma RelayOwnNumbered(c: Config, s: St, h: nat, m: Member, body: Body)
    requires Numbered(s, h, m) && SlotOk(s, h, m) && IsRelay(s, h)
    ensures Numbered(RelayState(c, s, h, m, body), h, m)
  {
    hide SendState, Starts, Rising, Among, Count;
    var f := State(h, m, body);
    var r := s.served[h];
    var u := s.(inbox := s.inbox + [f],
                served := s.served[h := r.(awaiting := r.awaiting - {m}, urgent := r.urgent - {m})]);
    var t := RelayState(c, s, h, m, body);
    StartsPush(s.inbox, f, h, m);
    SendNoStart(c, u, f, h, m);
    if body.Ops? {
      SendStateNoStart(c, u, h, m, body, Resync, h, m);
      NoStartNumbered(s, t, h, m);
    } else {
      SendBaseStarts(c, u, h, m, body, Resync);
      AmongPush(Starts(s.wire, h, m), SlotStarts(s, h, m), Starts(s.inbox, h, m), body.session);
      assert Starts(s.wire, h, m) + [body.session] + [] == Starts(s.wire, h, m) + [body.session];
      assert AllStarts(t, h, m) == Starts(s.wire, h, m) + [body.session];
    }
  }

  lemma FromDownNumbered(c: Config, s: St, f: Frame, h: nat, m: Member)
    requires Numbered(s, h, m) && SlotOk(s, h, m) && !s.closed
    ensures Numbered(Step(c, s, FromDown(f)), h, m)
  {
    hide SendState, Starts, Numbered, RelayShape, RelayState;
    match f
    case State(hold, name, body) =>
      if IsRelay(s, hold) && (h, m) == (hold, name) {
        RelayOwnNumbered(c, s, h, m, body);
      } else {
        RelayOtherNumbered(c, s, hold, name, body, h, m);
      }
    case Shape(hold, listed) =>
      ShapeNoStart(c, s, hold, listed, h, m);
      NoStartNumbered(s, Step(c, s, FromDown(f)), h, m);
    case Other(_) =>
  }

  lemma RelayOtherNumbered(c: Config, s: St, hold: nat, name: Member, body: Body, h: nat, m: Member)
    requires Numbered(s, h, m) && (IsRelay(s, hold) ==> (h, m) != (hold, name))
    ensures Numbered(RelayState(c, s, hold, name, body), h, m)
  {
    hide SendState, Starts, Numbered, Count;
    if IsRelay(s, hold) {
      var f := State(hold, name, body);
      var r := s.served[hold];
      var u := s.(inbox := s.inbox + [f],
                  served := s.served[hold := r.(awaiting := r.awaiting - {name}, urgent := r.urgent - {name})]);
      StartsPush(s.inbox, f, h, m);
      assert FrameStarts(f, h, m) == [];
      SendNoStart(c, u, f, h, m);
      SendStateNoStart(c, u, hold, name, body, Resync, h, m);
      NoStartNumbered(s, RelayState(c, s, hold, name, body), h, m);
    }
  }

  lemma ShapeNoStart(c: Config, s: St, hold: nat, listed: seq<Member>, h: nat, m: Member)
    ensures NoStart(s, RelayShape(c, s, hold, listed), h, m)
  {
    hide Starts, Count;
    StartsPush(s.inbox, Shape(hold, listed), h, m);
    StartsPush(s.wire, Shape(hold, listed), h, m);
  }

  lemma {:induction false} NothingStarts(apply: Apply, frames: seq<Frame>, h: nat, m: Member)
    requires CopyOf(apply, frames, h, m) == Nothing
    ensures Starts(frames, h, m) == []
  {
    if frames != [] {
      var init, last := frames[..|frames| - 1], frames[|frames| - 1];
      NothingStarts(apply, init, h, m);
    }
  }

  /** A hold id is new: nothing of its streams was sent before. */
  lemma HoldNumbered(c: Config, s: St, hold: nat, served: Served, h: nat, m: Member)
    requires Numbered(s, h, m) && Good(c, s, h, m) && hold !in s.served && (hold == h ==> h !in s.used)
    ensures Numbered(OnHold(s, hold, served), h, m)
  {
    hide Starts;
    if hold == h { NothingStarts(c.apply, s.wire, h, m); }
  }

  lemma HoldStepNumbered(c: Config, s: St, e: Event, h: nat, m: Member)
    requires Numbered(s, h, m) && Good(c, s, h, m) && Accounted(c, s) && Admissible(c, s, e, h, m) && !s.closed
    requires e.HoldLocal? || e.HoldRelay?
    ensures Numbered(Step(c, s, e), h, m)
  {
    hide Good, Unit, Accounted;
    if e.hold !in s.served {
      if e.HoldLocal? {
        var served := Local(e.wantsState, e.again, false, map[]);
        HoldNumbered(c, s, e.hold, served, h, m);
        OnHoldGood(c, s, e.hold, served, h, m);
        SameAccounts(c, s, OnHold(s, e.hold, served));
        UnitNumbered(c, OnHold(s, e.hold, served), e.hold, h, m);
      } else {
        HoldNumbered(c, s, e.hold, Relay(e.again, e.wantsState, false, false, {}, {}), h, m);
      }
    }
  }

  lemma SameAccounts(c: Config, s: St, t: St)
    requires Accounted(c, s) && s.window == t.window && s.waiting == t.waiting
    ensures Accounted(c, t)
  {
  }

  lemma WantNumbered(c: Config, s: St, hold: nat, wanted: bool, h: nat, m: Member)
    requires Numbered(s, h, m) && Good(c, s, h, m) && Accounted(c, s)
    ensures Numbered(OnWantState(c, s, hold, wanted), h, m)
  {
    hide Unit, Good, Accounted, Without, Bytes, Starts;
    if IsLocal(s, hold) && s.served[hold].wantsState != wanted && wanted {
      var t := s.(served := s.served[hold := s.served[hold].(wantsState := wanted)]);
      assert Kept(c, s, t, h, m);
      KeptGood(c, s, t, h, m);
      SameAccounts(c, s, t);
      NoStartNumbered(s, t, h, m);
      UnitNumbered(c, t, hold, h, m);
    } else {
      HoldDiscarded(c, s, hold, h, m);
      NoStartNumbered(s, OnWantState(c, s, hold, wanted), h, m);
    }
  }

  lemma LiveNumbered(c: Config, s: St, hold: nat, members: seq<Member>, h: nat, m: Member)
    requires Numbered(s, h, m) && Good(c, s, h, m) && Accounted(c, s)
    ensures Numbered(Unit(c, s.(shapes := s.shapes[hold := members]), hold), h, m)
  {
    hide Unit, Accounted, Starts;
    var t := s.(shapes := s.shapes[hold := members]);
    KeptGood(c, s, t, h, m);
    SameAccounts(c, s, t);
    NoStartNumbered(s, t, h, m);
    UnitNumbered(c, t, hold, h, m);
  }

  lemma AckNumbered(c: Config, s: St, n: nat, h: nat, m: Member)
    requires Numbered(s, h, m) && Good(c, s, h, m) && Accounted(c, s)
    ensures Numbered(OnAck(c, s, n), h, m)
  {
    hide Starts, Flush;
    if AckInRange(s.window, n) {
      var t := s.(window := Acknowledge(s.window, n));
      KeptGood(c, s, t, h, m);
      AcknowledgeCounted(s.window, n);
      NoStartNumbered(s, t, h, m);
      FlushNumbered(c, t, h, m);
    }
  }

  lemma PlainNumbered(c: Config, s: St, e: Event, h: nat, m: Member)
    requires Numbered(s, h, m) && !s.closed
    requires e.SendOther? || e.Hello? || e.Adopt? || e.Unreadable? || e.RouteOpened? || e.Release? || e.LinkClosed?
    ensures Numbered(Step(c, s, e), h, m)
  {
    hide Starts, Without, Bytes;
    if e.SendOther? { StartsPush(s.wire, Other(e.tag), h, m); }
    NoStartNumbered(s, Step(c, s, e), h, m);
  }

  lemma StepNumbered(c: Config, s: St, e: Event, h: nat, m: Member)
    requires Numbered(s, h, m) && Good(c, s, h, m) && Accounted(c, s) && Admissible(c, s, e, h, m)
    ensures Numbered(Step(c, s, e), h, m)
  {
    hide Numbered, Good, Accounted, OnAck, OnHold, Unit, FeedOps, FeedReset, OnWantState, RelayShape, RelayState,
        DropServed;
    if s.closed { return; }
    match e
    case Ack(n) => AckNumbered(c, s, n, h, m);
    case HoldLocal(_, _, _) => HoldStepNumbered(c, s, e, h, m);
    case HoldRelay(_, _, _) => HoldStepNumbered(c, s, e, h, m);
    case Live(hold, members) => LiveNumbered(c, s, hold, members, h, m);
    case SourceOps(_, _, _) => GoodSlot(c, s, h, m); FeedNumbered(c, s, e, h, m);
    case SourceReset(_, _, _) => GoodSlot(c, s, h, m); FeedNumbered(c, s, e, h, m);
    case Want(hold, wanted) => WantNumbered(c, s, hold, wanted, h, m);
    case AskReset(hold, name) => AskNumbered(c, s, hold, name, h, m);
    case FromDown(f) => GoodSlot(c, s, h, m); FromDownNumbered(c, s, f, h, m);
    case _ => PlainNumbered(c, s, e, h, m);
  }

  lemma AskNumbered(c: Config, s: St, hold: nat, name: Member, h: nat, m: Member)
    requires Numbered(s, h, m) && Good(c, s, h, m) && Accounted(c, s)
    ensures Numbered(OnResync(c, s, hold, name), h, m)
  {
    hide Starts, ResetLater;
    if IsLocal(s, hold) {
      if HasFeed(s, hold, name) { ResetLaterNumbered(c, s, hold, name, h, m); }
    } else {
      NoStartNumbered(s, OnResync(c, s, hold, name), h, m);
    }
  }

  lemma {:induction false} RunNumbered(c: Config, events: seq<Event>, h: nat, m: Member)
    requires AdmissibleRun(c, events, h, m)
    ensures Numbered(Run(c, Init, events), h, m)
  {
    if events != [] {
      var init := events[..|events| - 1];
      RunNumbered(c, init, h, m);
      RunGood(c, init, h, m);
      RunAccounting(c, init);
      StepNumbered(c, Run(c, Init, init), events[|events| - 1], h, m);
    }
  }

  // --- the theorem ---

  lemma RisingDistinct(a: seq<nat>, b: seq<nat>, c: seq<nat>, bound: nat)
    requires Rising(a + b + c, bound)
    ensures Consumers.Distinct(a)
  {
    assert forall i | 0 <= i < |a| :: a[i] == (a + b + c)[i];
  }

  /**
   * Whatever part of the frames sent is still in flight: a consumer that has the member is in step with where the
   * stream is exactly when no error was the last base it got.
   */
  lemma ConsumerFollows(c: Config, events: seq<Event>, history: seq<Happening>, inFlight: seq<Frame>, h: nat, m: Member)
    requires AdmissibleRun(c, events, h, m)
    requires var s := Run(c, Init, events); s.wire == Arrived(history) + inFlight && IsLocal(s, h)
    ensures var x := Held(c.apply, history, h, m);
      x.Absent? || x.Ended? ||
      (InStep(x, CopyIn(c, Arrived(history), h, m)) <==> !Erred(Arrived(history), h, m))
  {
    var s := Run(c, Init, events);
    RunGood(c, events, h, m);
    LocalUncut(c, s, h, m);
    GapFree(c, events, Arrived(history), inFlight, h, m);
    RunNumbered(c, events, h, m);
    StartsAppend(Arrived(history), inFlight, h, m);
    RisingDistinct(Starts(Arrived(history), h, m), Starts(inFlight, h, m), SlotStarts(s, h, m), s.nextSession);
    InStepUnlessErred(c.apply, history, h, m);
  }

  lemma LocalUncut(c: Config, s: St, h: nat, m: Member)
    requires Good(c, s, h, m) && IsLocal(s, h)
    ensures h !in s.cut
  {
  }

  /** A consumer that got a whole stream of distinct sessions, which is where the feed says it is. */
  lemma ConsumerAtRest(apply: Apply, history: seq<Happening>, feed: Feed, h: nat, m: Member)
    requires Consumers.Distinct(Starts(Arrived(history), h, m)) && CopyOf(apply, Arrived(history), h, m) == Told(feed)
    ensures var x := Held(apply, history, h, m);
      && (feed.errored <==> Erred(Arrived(history), h, m))
      && (x.Absent? || x.Ended? || (x == Holds(feed.seen, feed.session, feed.next) <==> !feed.errored))
      && (Keeps(history, h, m) && !feed.errored ==> x == Holds(feed.seen, feed.session, feed.next))
  {
    hide Starts, CopyOf, Held, Erred, Arrived, Consumers.Distinct, Keeps;
    InStepUnlessErred(apply, history, h, m);
    ErredIsBroken(apply, Arrived(history), h, m);
    if Keeps(history, h, m) { KeepersHold(apply, history, h, m); }
  }

  /**
   * Nothing waits and nothing is in flight: a consumer that has the member has the revision the feed was told last,
   * with a decoder in step with the feed's encoder, exactly when the stream's last base was no error, that is when
   * the value the feed started from was valid. One that never forgot the member, nor failed over an error that came
   * before its first state, does have it then.
   */
  lemma ConsumerAgrees(c: Config, events: seq<Event>, history: seq<Happening>, h: nat, m: Member)
    requires AdmissibleRun(c, events, h, m)
    requires var s := Run(c, Init, events); s.wire == Arrived(history) && HasFeed(s, h, m) && !HasSlot(s, h, m)
    ensures var s := Run(c, Init, events);
      var feed := s.served[h].feeds[m];
      var x := Held(c.apply, history, h, m);
      && (feed.errored <==> Erred(s.wire, h, m))
      && (x.Absent? || x.Ended? || (x == Holds(feed.seen, feed.session, feed.next) <==> !feed.errored))
      && (Keeps(history, h, m) && !feed.errored ==> x == Holds(feed.seen, feed.session, feed.next))
  {
    hide Starts, CopyOf, Held, Erred, Keeps;
    var s := Run(c, Init, events);
    assert s.wire + [] == s.wire;
    WindowedAgrees(c, events, s.wire, [], h, m);
    RunNumbered(c, events, h, m);
    assert Starts(s.wire, h, m) + [] + SlotStarts(s, h, m) == AllStarts(s, h, m);
    RisingDistinct(Starts(s.wire, h, m), [], SlotStarts(s, h, m), s.nextSession);
    ConsumerAtRest(c.apply, history, s.served[h].feeds[m], h, m);
  }
}

/**
 * An end that is asked for a reset sends a base of that stream: at once, or when its slot is flushed, or, if it is a
 * relay itself, when its own request is answered.
 */
module ResetsSent {
  import opened Streams
  import opened Flow
  import opened FlowAccounting
  import opened FlowStreams
  import opened Consumers
  import opened ConsumerRuns
  import opened RelayResets

  /** The stream is served here, and no switch-off lost any of it. */
  predicate Serves(s: St, h: nat, m: Member) {
    h !in s.cut && (HasFeed(s, h, m) || IsRelay(s, h))
  }

  /** A base of the stream is to go out: it waits, will be built from the current value, or is awaited. */
  predicate Promised(s: St, h: nat, m: Member) {
    SlotStarts(s, h, m) != [] || Lazy(s, h, m) || Awaits(s, h, m)
  }

  /** From `s` to `t` no base is taken back, and a promised one went out or is still promised. */
  predicate Honours(s: St, t: St, h: nat, m: Member) {
    && s.used <= t.used
    && (h in s.used ==>
          && Bases(s.wire, h, m) <= Bases(t.wire, h, m)
          && (Serves(t, h, m) ==>
                || Bases(s.wire, h, m) < Bases(t.wire, h, m)
                || (Serves(s, h, m) && (Promised(s, h, m) ==> Promised(t, h, m)))))
  }

  lemma HonoursTwice(s: St, t: St, u: St, h: nat, m: Member)
    requires Honours(s, t, h, m) && Honours(t, u, h, m)
    ensures Honours(s, u, h, m)
  {
    hide Starts, Serves, Promised;
  }

  /** Nothing but the environment, or what concerns other streams, changed. */
  lemma SameHonours(s: St, t: St, h: nat, m: Member)
    requires s.used <= t.used && s.cut <= t.cut && Starts(t.wire, h, m) == Starts(s.wire, h, m)
    requires Serves(t, h, m) ==>
      && Serves(s, h, m) && SlotStarts(t, h, m) == SlotStarts(s, h, m)
      && (Lazy(s, h, m) ==> Lazy(t, h, m)) && (Awaits(s, h, m) ==> Awaits(t, h, m))
    ensures Honours(s, t, h, m)
  {
    hide Starts, SlotStarts;
  }

  lemma KeptHonours(c: Config, s: St, t: St, h: nat, m: Member)
    requires SlotOk(s, h, m) && Kept(c, s, t, h, m) && Starts(t.wire, h, m) == Starts(s.wire, h, m)
    ensures Honours(s, t, h, m)
  {
    hide Starts, CopyOf;
  }

  // --- state frames ---

  lemma SendOtherHonours(c: Config, s: St, hold: nat, name: Member, body: Body, overflow: Overflow, h: nat, m: Member)
    requires SlotOk(s, h, m) && (h, m) != (hold, name)
    ensures Honours(s, SendState(c, s, hold, name, body, overflow), h, m)
  {
    hide Starts, SendState, Kept, SlotOk;
    SendStateKept(c, s, hold, name, body, overflow, h, m);
    SendStateNoStart(c, s, hold, name, body, overflow, h, m);
    KeptHonours(c, s, SendState(c, s, hold, name, body, overflow), h, m);
  }

  /** A base goes out, or waits from now on. */
  lemma SendBaseHonours(c: Config, s: St, h: nat, m: Member, body: Body, overflow: Overflow)
    requires SlotOk(s, h, m) && !body.Ops?
    ensures var t := SendState(c, s, h, m, body, overflow);
      && Honours(s, t, h, m) && (Bases(s.wire, h, m) < Bases(t.wire, h, m) || Promised(t, h, m))
      && t.used == s.used && Bases(s.wire, h, m) <= Bases(t.wire, h, m)
  {
    hide Starts, SendState;
    SendBaseStarts(c, s, h, m, body, overflow);
    SendStateFrame(c, s, h, m, body, overflow);
    var t := SendState(c, s, h, m, body, overflow);
    assert |AllStarts(t, h, m)| == Bases(t.wire, h, m) + |SlotStarts(t, h, m)|;
  }

  lemma SendOpsHonours(c: Config, s: St, h: nat, m: Member, ops: seq<WireOp>, overflow: Overflow)
    requires SlotOk(s, h, m) && Slottable(s, h, m, overflow)
    ensures Honours(s, SendState(c, s, h, m, Ops(ops), overflow), h, m)
  {
    hide Starts, Append, Count;
    var k := StateKey(h, m);
    if k !in s.waiting.slots && !Full(c, s) {
      SendNoStart(c, s, State(h, m, Ops(ops)), h, m);
    } else {
      var w := if k in s.waiting.slots then s.waiting else Put(s.waiting, k, StateSlot(None, [], 0, false, overflow));
      var t := s.(waiting := w);
      SameHonours(s, t, h, m);
      if !w.slots[k].lazy {
        AppendHonours(c, t, h, m, ops);
        HonoursTwice(s, t, Append(c, t, k, ops), h, m);
      }
    }
  }

  lemma AppendHonours(c: Config, s: St, h: nat, m: Member, ops: seq<WireOp>)
    requires SlotOk(s, h, m)
    ensures Honours(s, Append(c, s, StateKey(h, m), ops), h, m)
  {
    hide Starts, MakeRoom, Bytes, Without, Kept;
    var k := StateKey(h, m);
    var size := c.opsSize(ops);
    MakeRoomKept(c, s, s.waiting.order, size, k, h, m);
    MakeRoomNoStart(c, s, s.waiting.order, size, k, h, m);
    var t := if Fits(c, s.waiting, size) then s else MakeRoom(c, s, s.waiting.order, size, k);
    SameHonours(s, s, h, m);
    if !Fits(c, s.waiting, size) { KeptHonours(c, s, t, h, m); }
    SameHonours(t, Append(c, s, k, ops), h, m);
    HonoursTwice(s, t, Append(c, s, k, ops), h, m);
  }

  // --- units, resends, flushing ---

  /** Whoever has a feed after a unit had one before, or got a snapshot. */
  lemma {:induction false} AttachAllFeeds(c: Config, s: St, hold: nat, listed: seq<Member>, h: nat, m: Member)
    ensures var (t, snaps) := AttachAll(c, s, hold, listed);
      HasFeed(t, h, m) ==> HasFeed(s, h, m) || Starts(snaps, h, m) != []
    decreases |listed|
  {
    if listed != [] {
      hide Starts;
      if !Attachable(s, hold, listed[0]) {
        AttachAllFeeds(c, s, hold, listed[1..], h, m);
      } else {
        var f := State(hold, listed[0], Base(c, s.values[(hold, listed[0])], s.nextSession, false));
        var t := Attach(c, s, hold, listed[0]);
        var rest := AttachAll(c, t, hold, listed[1..]).1;
        AttachAllFeeds(c, t, hold, listed[1..], h, m);
        StartsAppend([f], rest, h, m);
        StartsPush([], f, h, m);
        assert [] + [f] == [f];
      }
    }
  }

  lemma SendUnitHonours(c: Config, s: St, hold: nat, h: nat, m: Member)
    ensures Honours(s, SendUnit(c, s, hold), h, m)
  {
    hide SendUnit, AttachAll, Starts, Lacking, Names;
    SendUnitWaiting(c, s, hold);
    var t := SendUnit(c, s, hold);
    SameStateSlot(s, t, UnitKey(hold), h, m);
    SendUnitFrame(c, s, hold, h);
    if IsLocal(s, hold) && hold in s.shapes {
      var local := s.served[hold];
      var members := if local.wantsState then s.shapes[hold] else [];
      var listed := Lacking(members, local.feeds);
      var u := s.(served := s.served[hold := local.(unitSent := true)]);
      AttachAllFeeds(c, u, hold, listed, h, m);
      SendUnitWire(c, s, hold);
      var snaps := AttachAll(c, u, hold, listed).1;
      StartsPush(s.wire, Shape(hold, Names(snaps)), h, m);
      StartsAppend(s.wire + [Shape(hold, Names(snaps))], snaps, h, m);
      assert Bases(t.wire, h, m) == Bases(s.wire, h, m) + |Starts(snaps, h, m)|;
      if Starts(snaps, h, m) == [] { SameHonours(s, t, h, m); }
    } else {
      NoUnit(c, s, hold);
    }
  }

  /** A feed that is replaced gets a base, or there is no feed any more. */
  lemma ResendHonours(c: Config, s: St, hold: nat, name: Member, h: nat, m: Member)
    ensures var t := ResendNow(c, s, hold, name);
      && Honours(s, t, h, m) && t.used == s.used && t.waiting == s.waiting
      && Bases(s.wire, h, m) <= Bases(t.wire, h, m)
      && ((h, m) == (hold, name) && HasFeed(s, h, m) && Serves(t, h, m) ==> Bases(s.wire, h, m) < Bases(t.wire, h, m))
  {
    hide Starts, SlotStarts, Count;
    var t := ResendNow(c, s, hold, name);
    if HasFeed(s, hold, name) && (hold, name) in s.values {
      var f := State(hold, name, Base(c, s.values[(hold, name)], s.nextSession, true));
      StartsPush(s.wire, f, h, m);
      assert t.wire == s.wire + [f] && Starts(s.wire, h, m) + [] == Starts(s.wire, h, m);
    } else {
      assert t.wire == s.wire;
    }
    SameSlotStarts(s, t, h, m);
    if (h, m) != (hold, name) || !HasFeed(s, h, m) { SameHonours(s, t, h, m); }
  }

  lemma SameSlotStarts(s: St, t: St, h: nat, m: Member)
    requires t.waiting == s.waiting
    ensures SlotStarts(t, h, m) == SlotStarts(s, h, m)
  {
  }

  /** The slot of another stream, or a unit. */
  lemma SendSlotOtherHonours(c: Config, s: St, k: Key, slot: Slot, h: nat, m: Member)
    requires (k.UnitKey? <==> slot.UnitSlot?) && k != StateKey(h, m)
    ensures Honours(s, SendSlot(c, s, k, slot), h, m)
  {
    hide SendUnit, ResendNow, Starts, SlotStarts, Count, Honours;
    SameHonours(s, s, h, m);
    match slot
    case UnitSlot => SendUnitHonours(c, s, k.hold, h, m);
    case StateSlot(base, ops, _, lazy, overflow) =>
      if lazy {
        ResendHonours(c, s, k.hold, k.m, h, m);
      } else {
        SlotFramesHonour(c, s, k, slot, h, m);
      }
  }

  lemma SlotFramesHonour(c: Config, s: St, k: Key, slot: Slot, h: nat, m: Member)
    requires k.StateKey? && slot.StateSlot? && !slot.lazy && k != StateKey(h, m)
    ensures Honours(s, SendSlot(c, s, k, slot), h, m)
  {
    hide Starts, SendSlot;
    SlotFramesStart(c, s, k, slot, h, m);
    SendSlotFrame(c, s, k, slot, h);
  }

  /** The slot at the front is taken off and sent. */
  lemma SendSlotHonours(c: Config, s: St, h: nat, m: Member)
    requires SlotOk(s, h, m) && Flushable(s.waiting)
    ensures var k := s.waiting.order[0];
      Honours(s, SendSlot(c, s.(waiting := Pop(s.waiting)), k, s.waiting.slots[k]), h, m)
  {
    hide Starts, SendSlot;
    var k := s.waiting.order[0];
    var t := s.(waiting := Pop(s.waiting));
    if k == StateKey(h, m) {
      SendSlotOwnHonours(c, s, h, m);
    } else {
      SameHonours(s, t, h, m);
      SendSlotOtherHonours(c, t, k, s.waiting.slots[k], h, m);
      HonoursTwice(s, t, SendSlot(c, t, k, s.waiting.slots[k]), h, m);
    }
  }

  lemma SendSlotOwnHonours(c: Config, s: St, h: nat, m: Member)
    requires SlotOk(s, h, m) && Flushable(s.waiting) && s.waiting.order[0] == StateKey(h, m)
    ensures var k := s.waiting.order[0];
      Honours(s, SendSlot(c, s.(waiting := Pop(s.waiting)), k, s.waiting.slots[k]), h, m)
  {
    hide Starts, ResendNow;
    var k := s.waiting.order[0];
    var t := s.(waiting := Pop(s.waiting));
    var slot := s.waiting.slots[k];
    if slot.lazy {
      ResendHonours(c, t, h, m, h, m);
      SendSlotFrame(c, t, k, slot, h);
    } else {
      hide SendSlot;
      SlotFramesStart(c, t, k, slot, h, m);
      SendSlotFrame(c, t, k, slot, h);
    }
  }

  lemma {:induction false} FlushHonours(c: Config, s: St, h: nat, m: Member)
    requires Good(c, s, h, m) && Accounted(c, s)
    ensures Honours(s, Flush(c, s), h, m)
    decreases |s.waiting.order|
  {
    hide Good, Honours, SendSlot, SlotStarts, Starts;
    SameHonours(s, s, h, m);
    if s.waiting.order != [] { PopTidy(c, s.waiting); }
    if Flushable(s.waiting) && !Full(c, s) {
      var k := s.waiting.order[0];
      var t := s.(waiting := Pop(s.waiting));
      var u := SendSlot(c, t, k, s.waiting.slots[k]);
      GoodSlot(c, s, h, m);
      SendSlotHonours(c, s, h, m);
      SendSlotAccounted(c, t, k, s.waiting.slots[k]);
      SendSlotWaiting(c, t, k, s.waiting.slots[k]);
      FirstSlotGood(c, s, h, m);
      FlushHonours(c, u, h, m);
      HonoursTwice(s, u, Flush(c, u), h, m);
    }
  }

  lemma FirstSlotGood(c: Config, s: St, h: nat, m: Member)
    requires Good(c, s, h, m) && Flushable(s.waiting)
    ensures var k := s.waiting.order[0];
      Good(c, SendSlot(c, s.(waiting := Pop(s.waiting)), k, s.waiting.slots[k]), h, m)
  {
    hide Good, SendSlot;
    var k := s.waiting.order[0];
    if k == StateKey(h, m) {
      SendSlotOwn(c, s, h, m);
    } else {
      PopGood(c, s, h, m);
      SendSlotOther(c, s.(waiting := Pop(s.waiting)), k, s.waiting.slots[k], h, m);
    }
  }

  lemma QueueUnitHonours(c: Config, s: St, hold: nat, h: nat, m: Member)
    requires Good(c, s, h, m) && Accounted(c, s)
    ensures Honours(s, QueueUnit(c, s, hold), h, m)
  {
    hide Flush, Starts;
    var k := UnitKey(hold);
    var t := if k in s.waiting.slots then s else s.(waiting := Put(s.waiting, k, UnitSlot));
    SameHonours(s, t, h, m);
    PutOrdered(s.waiting, k, UnitSlot);
    PutKept(c, s, s.waiting, k, h, m);
    KeptGood(c, s, t, h, m);
    FlushHonours(c, t, h, m);
    HonoursTwice(s, t, Flush(c, t), h, m);
  }

  lemma UnitHonours(c: Config, s: St, hold: nat, h: nat, m: Member)
    requires Good(c, s, h, m) && Accounted(c, s)
    ensures Honours(s, Unit(c, s, hold), h, m)
  {
    hide SendUnit, QueueUnit, Tidy, Counted, Bytes, Without, Starts;
    SameHonours(s, s, h, m);
    if IsLocal(s, hold) && hold in s.shapes {
      var local := s.served[hold];
      var members := if local.wantsState then Members(s.shapes[hold]) else {};
      var left := local.feeds.Keys - members;
      var keys := set m | m in left :: StateKey(hold, m);
      var t := s.(waiting := Discard(s.waiting, keys), served := s.served[hold := local.(feeds := local.feeds - left)]);
      DiscardTidy(c, s.waiting, keys);
      LeftGood(c, s, hold, h, m);
      LeftHonours(s, hold, left, h, m);
      SendUnitHonours(c, t, hold, h, m);
      QueueUnitHonours(c, t, hold, h, m);
      HonoursTwice(s, t, Unit(c, s, hold), h, m);
    }
  }

  /** Members without a feed are owed nothing. */
  lemma LeftHonours(s: St, hold: nat, left: set<Member>, h: nat, m: Member)
    requires IsLocal(s, hold)
    ensures var local := s.served[hold];
      Honours(s, s.(waiting := Discard(s.waiting, set m | m in left :: StateKey(hold, m)),
                    served := s.served[hold := local.(feeds := local.feeds - left)]), h, m)
  {
    hide Starts, Bytes, Without;
    assert StateKey(h, m) in (set m | m in left :: StateKey(hold, m)) <==> h == hold && m in left;
  }

  lemma ResetLaterHonours(c: Config, s: St, hold: nat, name: Member, h: nat, m: Member)
    requires Good(c, s, h, m) && Accounted(c, s) && HasFeed(s, hold, name)
    ensures var t := ResetLater(c, s, hold, name);
      && Honours(s, t, h, m)
      && ((h, m) == (hold, name) && h in s.used && Serves(t, h, m) ==>
            Bases(s.wire, h, m) < Bases(t.wire, h, m) || Promised(t, h, m))
  {
    hide Flush, Starts;
    var k := StateKey(hold, name);
    SameHonours(s, s, h, m);
    GoodSlot(c, s, h, m);
    if !(k in s.waiting.slots && s.waiting.slots[k].UnitSlot?) {
      var overflow := if k in s.waiting.slots then s.waiting.slots[k].overflow else Resend;
      var t := s.(waiting := Put(s.waiting, k, LazySlot.(overflow := overflow)));
      PutOrdered(s.waiting, k, LazySlot.(overflow := overflow));
      LazyGood(c, s, hold, name, h, m);
      FlushHonours(c, t, h, m);
      LazyHonours(s, hold, name, overflow, h, m);
      HonoursTwice(s, t, Flush(c, t), h, m);
    }
  }

  lemma LazyHonours(s: St, hold: nat, name: Member, overflow: Overflow, h: nat, m: Member)
    ensures var t := s.(waiting := Put(s.waiting, StateKey(hold, name), LazySlot.(overflow := overflow)));
      Honours(s, t, h, m) && ((h, m) == (hold, name) ==> Promised(t, h, m))
  {
    hide Starts;
  }

  // --- every event ---

  lemma FeedHonours(c: Config, s: St, e: Event, h: nat, m: Member)
    requires SlotOk(s, h, m) && !s.closed && (e.SourceOps? || e.SourceReset?)
    ensures Honours(s, Step(c, s, e), h, m)
  {
    hide SendState, Starts, Honours, Encode, Base;
    SameHonours(s, s, h, m);
    if HasFeed(s, e.hold, e.m) {
      if e.SourceOps? {
        var feed := s.served[e.hold].feeds[e.m];
        var told := feed.(next := feed.next + |e.opsOf|, seen := ApplyAll(c.apply, feed.seen, e.opsOf));
        var ops := Encode(feed.session, feed.next, e.opsOf);
        ToldHonours(c, s, Tell(s, e.hold, e.m, told), e.hold, e.m, Ops(ops), h, m);
      } else {
        var t := Tell(s, e.hold, e.m, Feed(s.nextSession, 0, e.to, !c.valid(e.to))).(nextSession := s.nextSession + 1);
        ToldHonours(c, s, t, e.hold, e.m, Base(c, e.to, s.nextSession, true), h, m);
      }
    }
  }

  lemma ToldHonours(c: Config, s: St, t: St, hold: nat, name: Member, body: Body, h: nat, m: Member)
    requires SlotOk(s, h, m) && HasFeed(s, hold, name)
    requires exists feed :: t == Tell(s, hold, name, feed).(nextSession := t.nextSession)
    ensures Honours(s, SendState(c, t, hold, name, body, Resend), h, m)
  {
    hide SendState, Starts;
    SameHonours(s, t, h, m);
    if (h, m) != (hold, name) {
      SendOtherHonours(c, t, hold, name, body, Resend, h, m);
    } else if body.Ops? {
      SendOpsHonours(c, t, h, m, body.ops, Resend);
    } else {
      SendBaseHonours(c, t, h, m, body, Resend);
    }
    HonoursTwice(s, t, SendState(c, t, hold, name, body, Resend), h, m);
  }

  lemma RelayShapeHonours(c: Config, s: St, hold: nat, listed: seq<Member>, h: nat, m: Member)
    ensures Honours(s, RelayShape(c, s, hold, listed), h, m)
  {
    hide Starts, Count;
    StartsPush(s.wire, Shape(hold, listed), h, m);
    SameHonours(s, RelayShape(c, s, hold, listed), h, m);
  }

  /** What comes in for the stream: a base goes on, ops change nothing that is owed. */
  lemma RelayOwnHonours(c: Config, s: St, h: nat, m: Member, body: Body)
    requires Good(c, s, h, m) && IsRelay(s, h) && HonestFrame(c, s, State(h, m, body))
    ensures Honours(s, RelayState(c, s, h, m, body), h, m)
  {
    hide SendState, Starts, Count, Honours;
    var f := State(h, m, body);
    var r := s.served[h];
    var u := s.(inbox := s.inbox + [f],
                served := s.served[h := r.(awaiting := r.awaiting - {m}, urgent := r.urgent - {m})]);
    if m in r.awaiting && body.Ops? {
      SameHonours(s, RelayState(c, s, h, m, body), h, m);
    } else if m in r.urgent {
      UrgentHonours(c, s, h, m, body);
    } else if body.Ops? {
      SameHonours(s, u, h, m);
      HonestShape(c, s, h, m, body);
      SendOpsHonours(c, u, h, m, body.ops, Resync);
      HonoursTwice(s, u, SendState(c, u, h, m, body, Resync), h, m);
    } else {
      RelayBaseHonours(c, s, u, h, m, body);
    }
  }

  lemma HonestShape(c: Config, s: St, h: nat, m: Member, body: Body)
    requires Good(c, s, h, m) && IsRelay(s, h) && HonestFrame(c, s, State(h, m, body))
    ensures s.served[h].shaped && SlotOk(s, h, m)
  {
    hide WithSlot;
    CopyOfPush(c.apply, s.inbox, State(h, m, body), h, m);
  }

  lemma RelayBaseHonours(c: Config, s: St, u: St, h: nat, m: Member, body: Body)
    requires SlotOk(s, h, m) && IsRelay(s, h) && !body.Ops?
    requires var r := s.served[h];
      && m !in r.urgent
      && u == s.(inbox := u.inbox,
                 served := s.served[h := r.(awaiting := r.awaiting - {m}, urgent := r.urgent - {m})])
    ensures Honours(s, SendState(c, u, h, m, body, Resync), h, m)
  {
    hide SendState, Starts, SlotStarts;
    SendBaseHonours(c, u, h, m, body, Resync);
    SendBaseStarts(c, u, h, m, body, Resync);
    SendStateFrame(c, u, h, m, body, Resync);
  }

  lemma UrgentHonours(c: Config, s: St, h: nat, m: Member, body: Body)
    requires IsRelay(s, h) && m in s.served[h].urgent && !(m in s.served[h].awaiting && body.Ops?)
    ensures Honours(s, RelayState(c, s, h, m, body), h, m)
  {
    hide SendState, Starts, Count;
    StartsPush(s.wire, State(h, m, body), h, m);
  }

  lemma RelayOtherHonours(c: Config, s: St, hold: nat, name: Member, body: Body, h: nat, m: Member)
    requires SlotOk(s, h, m) && (h, m) != (hold, name)
    ensures Honours(s, RelayState(c, s, hold, name, body), h, m)
  {
    hide SendState, Starts, Send, Honours, SlotStarts;
    SameHonours(s, s, h, m);
    if IsRelay(s, hold) {
      var f := State(hold, name, body);
      var r := s.served[hold];
      var t := s.(inbox := s.inbox + [f]);
      if name in r.awaiting && body.Ops? {
        OtherRelayHonours(s, t, hold, name, h, m);
      } else {
        var u := t.(served := t.served[hold := r.(awaiting := r.awaiting - {name}, urgent := r.urgent - {name})]);
        OtherRelayHonours(s, u, hold, name, h, m);
        SendOtherHonours(c, u, hold, name, body, Resync, h, m);
        SentHonours(c, u, f, h, m);
        HonoursTwice(s, u, RelayState(c, s, hold, name, body), h, m);
      }
    }
  }

  /** What a relay remembers of one member is nothing to another. */
  lemma OtherRelayHonours(s: St, t: St, hold: nat, name: Member, h: nat, m: Member)
    requires SlotOk(s, h, m) && IsRelay(s, hold) && (h, m) != (hold, name)
    requires var r := s.served[hold];
      t == s.(inbox := t.inbox, served := t.served) &&
      (t.served == s.served ||
       t.served == s.served[hold := r.(awaiting := r.awaiting - {name}, urgent := r.urgent - {name})])
    ensures Honours(s, t, h, m) && SlotOk(t, h, m)
  {
    hide Starts;
    SameHonours(s, t, h, m);
  }

  lemma SentHonours(c: Config, s: St, f: Frame, h: nat, m: Member)
    requires !IsState(f, h, m)
    ensures Honours(s, Send(c, s, f), h, m)
  {
    hide Starts, Count;
    StartsPush(s.wire, f, h, m);
    SameHonours(s, Send(c, s, f), h, m);
  }

  lemma HoldHonours(c: Config, s: St, e: Event, h: nat, m: Member)
    requires Good(c, s, h, m) && Accounted(c, s) && Admissible(c, s, e, h, m) && !s.closed
    requires e.HoldLocal? || e.HoldRelay?
    ensures Honours(s, Step(c, s, e), h, m)
  {
    hide Good, Unit, Accounted, Starts;
    if e.hold !in s.served && e.HoldLocal? {
      var served := Local(e.wantsState, e.again, false, map[]);
      var t := OnHold(s, e.hold, served);
      OnHoldGood(c, s, e.hold, served, h, m);
      SameAccounts(c, s, t);
      UnitHonours(c, t, e.hold, h, m);
      assert Honours(s, t, h, m);
      HonoursTwice(s, t, Step(c, s, e), h, m);
    }
  }

  lemma WantHonours(c: Config, s: St, hold: nat, wanted: bool, h: nat, m: Member)
    requires Good(c, s, h, m) && Accounted(c, s)
    ensures Honours(s, OnWantState(c, s, hold, wanted), h, m)
  {
    hide Unit, Good, Accounted, Starts, RelayWant;
    if IsLocal(s, hold) && s.served[hold].wantsState != wanted && wanted {
      var t := s.(served := s.served[hold := s.served[hold].(wantsState := wanted)]);
      assert Kept(c, s, t, h, m);
      KeptGood(c, s, t, h, m);
      SameAccounts(c, s, t);
      SameHonours(s, t, h, m);
      UnitHonours(c, t, hold, h, m);
      HonoursTwice(s, t, Unit(c, t, hold), h, m);
    } else if IsRelay(s, hold) {
      RelayWantHonours(c, s, hold, wanted, h, m);
    } else {
      HoldDiscarded(c, s, hold, h, m);
      StopHonours(s, OnWantState(c, s, hold, wanted), hold, h, m);
    }
  }

  /** State of a served hold stops: its members have no feeds, others keep theirs. */
  lemma StopHonours(s: St, t: St, hold: nat, h: nat, m: Member)
    requires !IsRelay(s, hold) && t.wire == s.wire && t.used == s.used && t.cut == s.cut
    requires t == s || (h == hold && !Serves(t, h, m)) || h != hold
    requires h != hold ==>
      && (h in t.served <==> h in s.served) && (h in s.served ==> t.served[h] == s.served[h])
      && (HasSlot(s, h, m) <==> HasSlot(t, h, m))
      && (HasSlot(s, h, m) ==> t.waiting.slots[StateKey(h, m)] == s.waiting.slots[StateKey(h, m)])
    ensures Honours(s, t, h, m)
  {
    hide Starts;
  }

  lemma RelayWantHonours(c: Config, s: St, hold: nat, wanted: bool, h: nat, m: Member)
    requires Good(c, s, h, m) && IsRelay(s, hold)
    ensures Honours(s, RelayWant(s, hold, wanted), h, m)
  {
    hide Starts, Without, Bytes, WithSlot;
    HoldDiscarded(c, s, hold, h, m);
    var t := RelayWant(s, hold, wanted);
    if s.served[hold].wanted && !wanted && !Unsettled(s, hold) {
      SettledKept(c, s, hold, h, m);
      KeptHonours(c, s, t, h, m);
    } else if Serves(t, h, m) {
      SameHonours(s, t, h, m);
    }
  }

  lemma PlainHonours(c: Config, s: St, e: Event, h: nat, m: Member)
    requires !s.closed
    requires e.SendOther? || e.Hello? || e.Adopt? || e.Unreadable? || e.RouteOpened? || e.LinkClosed?
    ensures Honours(s, Step(c, s, e), h, m)
  {
    hide Starts, Count;
    if e.SendOther? { StartsPush(s.wire, Other(e.tag), h, m); }
    SameHonours(s, Step(c, s, e), h, m);
  }

  lemma ReleaseHonours(c: Config, s: St, hold: nat, h: nat, m: Member)
    ensures Honours(s, DropServed(s, hold), h, m)
  {
    hide Starts, Without, Bytes;
    HoldDiscarded(c, s, hold, h, m);
    SameHonours(s, DropServed(s, hold), h, m);
  }

  lemma AskHonours(c: Config, s: St, hold: nat, name: Member, h: nat, m: Member)
    requires Good(c, s, h, m) && Accounted(c, s)
    ensures Honours(s, OnResync(c, s, hold, name), h, m)
  {
    hide ResetLater, Starts, Good;
    if HasFeed(s, hold, name) {
      ResetLaterHonours(c, s, hold, name, h, m);
    } else {
      SameHonours(s, OnResync(c, s, hold, name), h, m);
    }
  }

  lemma AckHonours(c: Config, s: St, n: nat, h: nat, m: Member)
    requires Good(c, s, h, m) && Accounted(c, s)
    ensures Honours(s, OnAck(c, s, n), h, m)
  {
    hide Starts, Flush;
    if AckInRange(s.window, n) {
      var t := s.(window := Acknowledge(s.window, n));
      KeptGood(c, s, t, h, m);
      AcknowledgeCounted(s.window, n);
      SameHonours(s, t, h, m);
      FlushHonours(c, t, h, m);
      HonoursTwice(s, t, Flush(c, t), h, m);
    }
  }

  lemma LiveHonours(c: Config, s: St, hold: nat, members: seq<Member>, h: nat, m: Member)
    requires Good(c, s, h, m) && Accounted(c, s)
    ensures Honours(s, Unit(c, s.(shapes := s.shapes[hold := members]), hold), h, m)
  {
    hide Unit, Accounted, Starts;
    var t := s.(shapes := s.shapes[hold := members]);
    KeptGood(c, s, t, h, m);
    SameAccounts(c, s, t);
    SameHonours(s, t, h, m);
    UnitHonours(c, t, hold, h, m);
    HonoursTwice(s, t, Unit(c, t, hold), h, m);
  }

  lemma StepHonours(c: Config, s: St, e: Event, h: nat, m: Member)
    requires Good(c, s, h, m) && Accounted(c, s) && Admissible(c, s, e, h, m)
    ensures Honours(s, Step(c, s, e), h, m)
  {
    hide Good, Accounted, Honours, OnAck, OnHold, Unit, FeedOps, FeedReset, OnWantState, OnResync, RelayShape,
        RelayState, DropServed;
    GoodSlot(c, s, h, m);
    SameHonours(s, s, h, m);
    if s.closed { return; }
    match e
    case Ack(n) => AckHonours(c, s, n, h, m);
    case HoldLocal(_, _, _) => HoldHonours(c, s, e, h, m);
    case HoldRelay(_, _, _) => HoldHonours(c, s, e, h, m);
    case Live(hold, members) => LiveHonours(c, s, hold, members, h, m);
    case SourceOps(_, _, _) => FeedHonours(c, s, e, h, m);
    case SourceReset(_, _, _) => FeedHonours(c, s, e, h, m);
    case Want(hold, wanted) => WantHonours(c, s, hold, wanted, h, m);
    case AskReset(hold, name) => AskHonours(c, s, hold, name, h, m);
    case FromDown(Shape(hold, listed)) => RelayShapeHonours(c, s, hold, listed, h, m);
    case FromDown(State(hold, name, body)) => RelayStateHonours(c, s, hold, name, body, h, m);
    case FromDown(Other(_)) =>
    case Release(hold) => ReleaseHonours(c, s, hold, h, m);
    case _ => PlainHonours(c, s, e, h, m);
  }

  lemma RelayStateHonours(c: Config, s: St, hold: nat, name: Member, body: Body, h: nat, m: Member)
    requires Good(c, s, h, m) && (IsState(State(hold, name, body), h, m) ==> HonestFrame(c, s, State(hold, name, body)))
    ensures Honours(s, RelayState(c, s, hold, name, body), h, m)
  {
    hide Good, Honours, SendState, Count;
    GoodSlot(c, s, h, m);
    SameHonours(s, s, h, m);
    if (h, m) != (hold, name) {
      RelayOtherHonours(c, s, hold, name, body, h, m);
    } else if IsRelay(s, h) {
      RelayOwnHonours(c, s, h, m, body);
    }
  }

  lemma {:induction false} RunHonours(c: Config, events: seq<Event>, k: nat, h: nat, m: Member)
    requires AdmissibleRun(c, events, h, m) && k <= |events|
    ensures Honours(Run(c, Init, events[..k]), Run(c, Init, events), h, m)
  {
    hide Honours, Starts;
    if k == |events| {
      assert events[..k] == events;
      SameHonours(Run(c, Init, events), Run(c, Init, events), h, m);
    } else {
      var init := events[..|events| - 1];
      assert init[..k] == events[..k];
      RunHonours(c, init, k, h, m);
      RunGood(c, init, h, m);
      RunAccounting(c, init);
      StepHonours(c, Run(c, Init, init), events[|events| - 1], h, m);
      HonoursTwice(Run(c, Init, events[..k]), Run(c, Init, init), Run(c, Init, events), h, m);
    }
  }

  lemma {:induction false} PrefixAdmissible(c: Config, events: seq<Event>, k: nat, h: nat, m: Member)
    requires AdmissibleRun(c, events, h, m) && k <= |events|
    ensures AdmissibleRun(c, events[..k], h, m)
  {
    if k == |events| {
      assert events[..k] == events;
    } else {
      var init := events[..|events| - 1];
      assert init[..k] == events[..k];
      PrefixAdmissible(c, init, k, h, m);
    }
  }

  /** A request that an open end handles makes it promise a base, if it serves the stream at all. */
  lemma AskPromises(c: Config, s: St, h: nat, m: Member)
    requires Good(c, s, h, m) && Accounted(c, s) && h in s.used
    ensures var t := OnResync(c, s, h, m);
      && Bases(s.wire, h, m) <= Bases(t.wire, h, m)
      && (Serves(t, h, m) ==> Bases(s.wire, h, m) < Bases(t.wire, h, m) || Promised(t, h, m))
  {
    hide ResetLater, Starts, SlotStarts, Good;
    AskHonours(c, s, h, m, h, m);
    if HasFeed(s, h, m) { ResetLaterHonours(c, s, h, m, h, m); }
  }

  /**
   * However long it takes, whatever is dropped and coalesced meanwhile: once nothing of the stream waits and nothing is
   * awaited, a base went out after the request, if the end still serves the stream.
   */
  lemma RequestIsMet(c: Config, events: seq<Event>, k: nat, h: nat, m: Member)
    requires AdmissibleRun(c, events, h, m) && k < |events| && events[k] == AskReset(h, m)
    requires var asked := Run(c, Init, events[..k]); !asked.closed && h in asked.used
    requires var s := Run(c, Init, events); Serves(s, h, m) && !HasSlot(s, h, m) && !Awaits(s, h, m)
    ensures Bases(Run(c, Init, events[..k]).wire, h, m) < Bases(Run(c, Init, events).wire, h, m)
  {
    hide Starts, Honours, OnResync;
    var asked := Run(c, Init, events[..k]);
    var after := Run(c, Init, events[..k + 1]);
    assert events[..k + 1][..k] == events[..k];
    assert after == OnResync(c, asked, h, m);
    PrefixAdmissible(c, events, k, h, m);
    RunGood(c, events[..k], h, m);
    RunAccounting(c, events[..k]);
    AskPromises(c, asked, h, m);
    RunHonours(c, events, k + 1, h, m);
    StepFrame(c, asked, AskReset(h, m));
    PromiseKept(after, Run(c, Init, events), h, m);
  }

  lemma PromiseKept(s: St, t: St, h: nat, m: Member)
    requires Honours(s, t, h, m) && h in s.used && Serves(t, h, m) && !Promised(t, h, m)
    ensures Bases(s.wire, h, m) <= Bases(t.wire, h, m)
    ensures Serves(s, h, m) && Promised(s, h, m) ==> Bases(s.wire, h, m) < Bases(t.wire, h, m)
    ensures !Serves(s, h, m) ==> Bases(s.wire, h, m) < Bases(t.wire, h, m)
  {
    hide Starts;
  }
}

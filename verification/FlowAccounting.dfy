/** Byte and acknowledgement accounting of a link end, over every run. */
module FlowAccounting {
  import opened Streams
  import opened Flow

  // --- sums ---

  lemma {:induction false} SumSplit(a: seq<nat>, b: seq<nat>)
    ensures Sum(a + b) == Sum(a) + Sum(b)
  {
    if a == [] {
      assert a + b == b;
    } else {
      SumSplit(a[1..], b);
      assert (a + b)[1..] == a[1..] + b;
    }
  }

  predicate Distinct(order: seq<Key>) {
    forall i, j | 0 <= i < j < |order| :: order[i] != order[j]
  }

  lemma {:induction false} WithoutElements(order: seq<Key>, keys: set<Key>)
    ensures forall k :: k in Without(order, keys) <==> k in order && k !in keys
    ensures Distinct(order) ==> Distinct(Without(order, keys))
  {
    if order != [] {
      WithoutElements(order[1..], keys);
      assert forall k :: k in order <==> k == order[0] || k in order[1..];
      var rest := Without(order[1..], keys);
      if Distinct(order) && order[0] !in keys {
        assert order[0] !in order[1..];
        assert Without(order, keys) == [order[0]] + rest;
      } else if order[0] in keys {
        assert Without(order, keys) == rest;
      }
    }
  }

  lemma {:induction false} BytesFrame(order: seq<Key>, a: map<Key, Slot>, b: map<Key, Slot>)
    requires forall k | k in order :: SlotSize(a, k) == SlotSize(b, k)
    ensures Bytes(order, a) == Bytes(order, b)
  {
    if order != [] {
      assert order[0] in order;
      BytesFrame(order[1..], a, b);
    }
  }

  lemma {:induction false} BytesWithout(order: seq<Key>, keys: set<Key>, slots: map<Key, Slot>)
    ensures Bytes(Without(order, keys), slots) <= Bytes(order, slots)
  {
    if order != [] {
      BytesWithout(order[1..], keys, slots);
      if order[0] !in keys {
        assert Without(order, keys)[1..] == Without(order[1..], keys);
      } else {
        assert Without(order, keys) == Without(order[1..], keys);
      }
    }
  }

  lemma {:induction false} BytesAppend(order: seq<Key>, k: Key, slots: map<Key, Slot>)
    ensures Bytes(order + [k], slots) == Bytes(order, slots) + SlotSize(slots, k)
  {
    if order == [] {
      assert order + [k] == [k];
    } else {
      BytesAppend(order[1..], k, slots);
      assert (order + [k])[1..] == order[1..] + [k];
    }
  }

  lemma {:induction false} BytesUpdate(order: seq<Key>, slots: map<Key, Slot>, k: Key, slot: Slot)
    requires Distinct(order) && k in order
    ensures Bytes(order, slots[k := slot]) ==
      Bytes(order, slots) - SlotSize(slots, k) + (if slot.StateSlot? then slot.size else 0)
  {
    if order[0] == k {
      assert k !in order[1..];
      BytesFrame(order[1..], slots, slots[k := slot]);
    } else {
      assert k in order[1..];
      BytesUpdate(order[1..], slots, k, slot);
    }
  }

  // --- the slots are in order, and counted ---

  predicate EmptyIfLazy(slot: Slot) {
    slot.StateSlot? && slot.lazy ==> slot.base == None && slot.ops == [] && slot.size == 0
  }

  ghost predicate Ordered(w: Waiting) {
    && Distinct(w.order)
    && (forall k :: k in w.slots <==> k in w.order)
    && (forall k | k in w.slots :: (k.UnitKey? <==> w.slots[k].UnitSlot?) && EmptyIfLazy(w.slots[k]))
    && w.bytes == Bytes(w.order, w.slots)
  }

  /** What waits is counted exactly, and never exceeds the cap. */
  ghost predicate Tidy(c: Config, w: Waiting) {
    Ordered(w) && Fits(c, w, 0)
  }

  /** The frames not acknowledged yet are counted exactly, in frames and in bytes. */
  predicate Counted(w: Window) {
    && w.acked <= w.sent
    && (w.peerAcks != Some(false) ==> |w.unacked| == w.sent - w.acked)
    && w.unackedBytes == Sum(w.unacked)
  }

  ghost predicate Accounted(c: Config, s: St) {
    Tidy(c, s.waiting) && Counted(s.window)
  }

  lemma CountCounted(w: Window, size: nat)
    requires Counted(w)
    ensures Counted(Count(w, size))
  {
    SumSplit(w.unacked, [size]);
    assert Sum([size]) == size + Sum([]);
  }

  lemma {:induction false} SendAllCounted(c: Config, s: St, frames: seq<Frame>)
    requires Counted(s.window)
    ensures Counted(SendAll(c, s, frames).window)
    decreases |frames|
  {
    if frames != [] {
      CountCounted(s.window, c.frameSize(frames[0]));
      SendAllCounted(c, Send(c, s, frames[0]), frames[1..]);
    }
  }

  lemma DiscardBytes(w: Waiting, keys: set<Key>)
    ensures var t := Discard(w, keys); t.bytes == w.bytes - Bytes(w.order, w.slots) + Bytes(t.order, t.slots)
    ensures Bytes(w.order, w.slots) >= Bytes(Discard(w, keys).order, Discard(w, keys).slots)
  {
    BytesWithout(w.order, keys, w.slots);
    var order := Without(w.order, keys);
    forall k | k in order ensures SlotSize(w.slots, k) == SlotSize(w.slots - keys, k) {
      WithoutElements(w.order, keys);
    }
    BytesFrame(order, w.slots, w.slots - keys);
  }

  lemma DiscardOrdered(w: Waiting, keys: set<Key>)
    requires Ordered(w)
    ensures Ordered(Discard(w, keys))
  {
    DiscardBytes(w, keys);
    WithoutElements(w.order, keys);
  }

  lemma DiscardTidy(c: Config, w: Waiting, keys: set<Key>)
    requires Tidy(c, w)
    ensures Tidy(c, Discard(w, keys))
  {
    DiscardBytes(w, keys);
    WithoutElements(w.order, keys);
  }

  lemma PutOrdered(w: Waiting, k: Key, slot: Slot)
    requires Ordered(w)
    requires (k.UnitKey? <==> slot.UnitSlot?) && EmptyIfLazy(slot)
    ensures Ordered(Put(w, k, slot))
  {
    if k in w.slots {
      BytesUpdate(w.order, w.slots, k, slot);
    } else {
      BytesAppend(w.order, k, w.slots[k := slot]);
      BytesFrame(w.order, w.slots, w.slots[k := slot]);
    }
  }

  lemma TailElements(order: seq<Key>)
    requires Distinct(order) && order != []
    ensures Distinct(order[1..])
    ensures forall x :: x in order[1..] <==> x in order && x != order[0]
  {
    assert forall x :: x in order <==> x == order[0] || x in order[1..];
  }

  lemma PopBytes(w: Waiting)
    requires w.order != [] && Distinct(w.order)
    ensures Bytes(w.order[1..], w.slots - {w.order[0]}) == Bytes(w.order, w.slots) - SlotSize(w.slots, w.order[0])
  {
    TailElements(w.order);
    BytesFrame(w.order[1..], w.slots, w.slots - {w.order[0]});
  }

  lemma PopTidy(c: Config, w: Waiting)
    requires Tidy(c, w) && w.order != []
    ensures w.order[0] in w.slots && Tidy(c, Pop(w)) && Flushable(w)
  {
    hide Distinct, Bytes, EmptyIfLazy, Without;
    TailElements(w.order);
    PopBytes(w);
    assert w.order[0] in w.order;
  }

  lemma DropTidy(c: Config, s: St, k: Key)
    requires Tidy(c, s.waiting)
    ensures Tidy(c, Drop(s, k).waiting)
  {
    if k in s.waiting.slots && k.StateKey? {
      if s.waiting.slots[k].overflow.Resend? {
        PutOrdered(s.waiting, k, LazySlot);
        assert Put(s.waiting, k, LazySlot).bytes <= s.waiting.bytes;
      } else {
        DiscardTidy(c, s.waiting, {k});
      }
    }
  }

  lemma {:induction false} MakeRoomTidy(c: Config, s: St, todo: seq<Key>, size: nat, current: Key)
    requires Tidy(c, s.waiting)
    ensures Tidy(c, MakeRoom(c, s, todo, size, current).waiting)
    decreases |todo|
  {
    if Fits(c, s.waiting, size) {
    } else if todo == [] {
      DropTidy(c, s, current);
    } else {
      DropTidy(c, s, todo[0]);
      var t := if todo[0] != current && SlotSize(s.waiting.slots, todo[0]) > 0 then Drop(s, todo[0]) else s;
      MakeRoomTidy(c, t, todo[1..], size, current);
    }
  }

  /** After making room the bytes fit, or nothing of the current stream is kept. */
  lemma {:induction false} MakeRoomFits(c: Config, s: St, todo: seq<Key>, size: nat, current: Key)
    requires current.StateKey? && current in s.waiting.slots && s.waiting.slots[current].StateSlot?
    ensures var w := MakeRoom(c, s, todo, size, current).waiting;
      && (current in w.slots ==> w.slots[current].StateSlot?)
      && (Fits(c, w, size) || current !in w.slots || w.slots[current].lazy)
    decreases |todo|
  {
    if !Fits(c, s.waiting, size) && todo != [] {
      var t := if todo[0] != current && SlotSize(s.waiting.slots, todo[0]) > 0 then Drop(s, todo[0]) else s;
      MakeRoomFits(c, t, todo[1..], size, current);
    }
  }

  /** Making room sends nothing. */
  lemma {:induction false} MakeRoomSendsNothing(c: Config, s: St, todo: seq<Key>, size: nat, current: Key)
    ensures var t := MakeRoom(c, s, todo, size, current);
      t == s.(waiting := t.waiting, served := t.served, asked := t.asked)
    decreases |todo|
  {
    hide Drop;
    DropSendsNothing(s, current);
    if !Fits(c, s.waiting, size) && todo != [] {
      DropSendsNothing(s, todo[0]);
      var t := if todo[0] != current && SlotSize(s.waiting.slots, todo[0]) > 0 then Drop(s, todo[0]) else s;
      MakeRoomSendsNothing(c, t, todo[1..], size, current);
    }
  }

  lemma DropSendsNothing(s: St, k: Key)
    ensures var t := Drop(s, k); t == s.(waiting := t.waiting, served := t.served, asked := t.asked)
  {
    hide Discard, Put;
  }

  lemma AppendAccounted(c: Config, s: St, k: Key, ops: seq<WireOp>)
    requires Accounted(c, s) && k.StateKey? && k in s.waiting.slots
    ensures Accounted(c, Append(c, s, k, ops))
  {
    hide MakeRoom;
    var size := c.opsSize(ops);
    MakeRoomTidy(c, s, s.waiting.order, size, k);
    MakeRoomFits(c, s, s.waiting.order, size, k);
    MakeRoomSendsNothing(c, s, s.waiting.order, size, k);
    var t := if Fits(c, s.waiting, size) then s else MakeRoom(c, s, s.waiting.order, size, k);
    AppendToSlot(c, t.waiting, k, ops, size);
  }

  lemma AppendToSlot(c: Config, w: Waiting, k: Key, ops: seq<WireOp>, size: nat)
    requires Tidy(c, w) && k.StateKey?
    requires k in w.slots && !w.slots[k].lazy ==> Fits(c, w, size)
    ensures k in w.slots && !w.slots[k].lazy ==>
      var slot := w.slots[k]; Tidy(c, Put(w, k, slot.(ops := slot.ops + ops, size := slot.size + size)))
  {
    if k in w.slots && !w.slots[k].lazy {
      var slot := w.slots[k];
      PutOrdered(w, k, slot.(ops := slot.ops + ops, size := slot.size + size));
    }
  }

  lemma SendStateAccounted(c: Config, s: St, hold: nat, m: Member, body: Body, overflow: Overflow)
    requires Accounted(c, s)
    ensures Accounted(c, SendState(c, s, hold, m, body, overflow))
  {
    var k := StateKey(hold, m);
    if k !in s.waiting.slots && !Full(c, s) {
      CountCounted(s.window, c.frameSize(State(hold, m, body)));
    } else {
      var created := StateSlot(None, [], 0, false, overflow);
      PutOrdered(s.waiting, k, created);
      var w := if k in s.waiting.slots then s.waiting else Put(s.waiting, k, created);
      assert Tidy(c, w);
      if !body.Ops? {
        PutOrdered(w, k, w.slots[k].(base := Some(body), ops := [], size := 0, lazy := false));
      } else {
        AppendAccounted(c, s.(waiting := w), k, body.ops);
      }
    }
  }

  lemma SendUnitAccounted(c: Config, s: St, hold: nat)
    requires Accounted(c, s)
    ensures Accounted(c, SendUnit(c, s, hold))
  {
    SendUnitWaiting(c, s, hold);
    DiscardTidy(c, s.waiting, {UnitKey(hold)});
    if hold in s.served && s.served[hold].Local? && hold in s.shapes {
      var t := s.(waiting := Discard(s.waiting, {UnitKey(hold)}));
      var local := s.served[hold];
      var members := if local.wantsState then s.shapes[hold] else [];
      var u := t.(served := t.served[hold := local.(unitSent := true)]);
      var listed := Lacking(members, local.feeds);
      AttachAllOrder(c, u, hold, listed);
      var (v, snaps) := AttachAll(c, u, hold, listed);
      CountCounted(v.window, c.frameSize(Shape(hold, Names(snaps))));
      SendAllCounted(c, Send(c, v, Shape(hold, Names(snaps))), snaps);
    }
  }

  lemma SendSlotAccounted(c: Config, s: St, k: Key, slot: Slot)
    requires Accounted(c, s)
    requires k.UnitKey? <==> slot.UnitSlot?
    ensures Accounted(c, SendSlot(c, s, k, slot))
  {
    hide Sum, Bytes;
    match slot
    case UnitSlot => SendUnitAccounted(c, s, k.hold);
    case StateSlot(base, ops, _, lazy, overflow) =>
      if lazy {
        if Attachable(s, k.hold, k.m) {
          CountCounted(s.window,
              c.frameSize(State(k.hold, k.m, Base(c, s.values[(k.hold, k.m)], s.nextSession, true))));
        }
      } else {
        if base.Some? { CountCounted(s.window, c.frameSize(State(k.hold, k.m, base.value))); }
        var t := if base.Some? then Send(c, s, State(k.hold, k.m, base.value)) else s;
        CountCounted(t.window, c.frameSize(State(k.hold, k.m, Ops(ops))));
      }
  }

  lemma {:induction false} FlushAccounted(c: Config, s: St)
    requires Accounted(c, s)
    ensures var t := Flush(c, s); Accounted(c, t) && (Full(c, t) || t.waiting.order == [])
    decreases |s.waiting.order|
  {
    if s.waiting.order != [] { PopTidy(c, s.waiting); }
    if Flushable(s.waiting) && !Full(c, s) {
      var k := s.waiting.order[0];
      var t := s.(waiting := Pop(s.waiting));
      SendSlotAccounted(c, t, k, s.waiting.slots[k]);
      SendSlotWaiting(c, t, k, s.waiting.slots[k]);
      FlushAccounted(c, SendSlot(c, t, k, s.waiting.slots[k]));
    }
  }

  lemma UnitAccounted(c: Config, s: St, hold: nat)
    requires Accounted(c, s)
    ensures Accounted(c, Unit(c, s, hold))
  {
    hide SendUnit, Flush, Bytes, Without;
    if hold in s.served && s.served[hold].Local? && hold in s.shapes {
      var local := s.served[hold];
      var members := if local.wantsState then Members(s.shapes[hold]) else {};
      var left := local.feeds.Keys - members;
      var gone := set m | m in left :: StateKey(hold, m);
      DiscardTidy(c, s.waiting, gone);
      var t := s.(waiting := Discard(s.waiting, gone),
                  served := s.served[hold := local.(feeds := local.feeds - left)]);
      SendUnitAccounted(c, t, hold);
      PutOrdered(t.waiting, UnitKey(hold), UnitSlot);
      FlushAccounted(c, if UnitKey(hold) in t.waiting.slots then t
                        else t.(waiting := Put(t.waiting, UnitKey(hold), UnitSlot)));
    }
  }

  lemma ResetLaterAccounted(c: Config, s: St, hold: nat, m: Member)
    requires Accounted(c, s)
    ensures Accounted(c, ResetLater(c, s, hold, m))
  {
    var k := StateKey(hold, m);
    var overflow := if k in s.waiting.slots then s.waiting.slots[k].overflow else Resend;
    PutOrdered(s.waiting, k, LazySlot.(overflow := overflow));
    FlushAccounted(c, s.(waiting := Put(s.waiting, k, LazySlot.(overflow := overflow))));
  }

  lemma AcknowledgeCounted(w: Window, n: nat)
    requires Counted(w) && AckInRange(w, n)
    ensures Counted(Acknowledge(w, n)) && Acknowledge(w, n).unacked == w.unacked[n - w.acked..]
  {
    var d := n - w.acked;
    SumSplit(w.unacked[..d], w.unacked[d..]);
    assert w.unacked[..d] + w.unacked[d..] == w.unacked;
  }

  lemma FeedAccounted(c: Config, s: St, e: Event)
    requires Accounted(c, s) && (e.SourceOps? || e.SourceReset? || e.FromDown?)
    ensures Accounted(c, Step(c, s, e))
  {
    hide SendState, Tidy, Counted;
    match e
    case SourceOps(h, m, ops) =>
      if h in s.served && s.served[h].Local? && m in s.served[h].feeds {
        var feed := s.served[h].feeds[m];
        var told := feed.(next := feed.next + |ops|, seen := ApplyAll(c.apply, feed.seen, ops));
        var t := Tell(s, h, m, told);
        SendStateAccounted(c, t, h, m, Ops(Encode(feed.session, feed.next, ops)), Resend);
      }
    case SourceReset(h, m, v) =>
      if h in s.served && s.served[h].Local? && m in s.served[h].feeds {
        var told := Feed(s.nextSession, 0, v, !c.valid(v));
        var t := Tell(s, h, m, told).(nextSession := s.nextSession + 1);
        SendStateAccounted(c, t, h, m, Base(c, v, s.nextSession, true), Resend);
      }
    case FromDown(f) =>
      CountCounted(s.window, c.frameSize(f));
      if f.State? && f.hold in s.served && s.served[f.hold].Relay? {
        var r := s.served[f.hold];
        var u := s.(inbox := s.inbox + [f],
                    served := s.served[f.hold := r.(awaiting := r.awaiting - {f.m}, urgent := r.urgent - {f.m})]);
        SendStateAccounted(c, u, f.hold, f.m, f.body, Resync);
      }
  }

  lemma StepAccounted(c: Config, s: St, e: Event)
    requires Accounted(c, s)
    ensures Accounted(c, Step(c, s, e))
  {
    hide Accounted, OnAck, OnHold, Unit, FeedOps, FeedReset, OnWantState, OnResync, RelayShape, RelayState, DropServed;
    if s.closed { return; }
    match e
    case Ack(n) => AckAccounted(c, s, n);
    case HoldLocal(_, _, _) => HoldAccounted(c, s, e);
    case HoldRelay(_, _, _) => HoldAccounted(c, s, e);
    case Live(h, members) => LiveAccounted(c, s, h, members);
    case Want(h, wanted) => WantAccounted(c, s, h, wanted);
    case AskReset(h, m) => ResyncAccounted(c, s, h, m);
    case Release(h) => ReleaseAccounted(c, s, h);
    case SourceOps(_, _, _) => FeedAccounted(c, s, e);
    case SourceReset(_, _, _) => FeedAccounted(c, s, e);
    case FromDown(_) => FeedAccounted(c, s, e);
    case _ => PlainAccounted(c, s, e);
  }

  lemma AckAccounted(c: Config, s: St, n: nat)
    requires Accounted(c, s)
    ensures Accounted(c, OnAck(c, s, n))
  {
    hide Flush, Acknowledge, Sum;
    if AckInRange(s.window, n) {
      AcknowledgeCounted(s.window, n);
      FlushAccounted(c, s.(window := Acknowledge(s.window, n)));
    } else {
      CloseAccounted(c, s);
    }
  }

  lemma CloseAccounted(c: Config, s: St)
    requires Accounted(c, s)
    ensures Accounted(c, Close(s))
  {
  }

  lemma HoldAccounted(c: Config, s: St, e: Event)
    requires Accounted(c, s) && (e.HoldLocal? || e.HoldRelay?) && !s.closed
    ensures Accounted(c, Step(c, s, e))
  {
    hide Unit, Tidy, Counted, Close;
    CloseAccounted(c, s);
    if e.HoldLocal? && e.hold !in s.served {
      UnitAccounted(c, OnHold(s, e.hold, Local(e.wantsState, e.again, false, map[])), e.hold);
    }
  }

  lemma LiveAccounted(c: Config, s: St, h: nat, members: seq<Member>)
    requires Accounted(c, s)
    ensures Accounted(c, Unit(c, s.(shapes := s.shapes[h := members]), h))
  {
    hide Unit, Tidy, Counted;
    UnitAccounted(c, s.(shapes := s.shapes[h := members]), h);
  }

  lemma WantAccounted(c: Config, s: St, h: nat, wanted: bool)
    requires Accounted(c, s)
    ensures Accounted(c, OnWantState(c, s, h, wanted))
  {
    hide Unit, Tidy, Counted, Discard, HoldKeys, Unsettled;
    DiscardTidy(c, s.waiting, HoldKeys(s.waiting, h));
    if h in s.served && s.served[h].Local? {
      UnitAccounted(c, s.(served := s.served[h := s.served[h].(wantsState := wanted)]), h);
    }
  }

  lemma ResyncAccounted(c: Config, s: St, h: nat, m: Member)
    requires Accounted(c, s)
    ensures Accounted(c, OnResync(c, s, h, m))
  {
    hide ResetLater, Tidy, Counted;
    ResetLaterAccounted(c, s, h, m);
  }

  lemma ReleaseAccounted(c: Config, s: St, h: nat)
    requires Accounted(c, s)
    ensures Accounted(c, DropServed(s, h))
  {
    hide Tidy, Counted, Discard, HoldKeys;
    DiscardTidy(c, s.waiting, HoldKeys(s.waiting, h));
  }

  lemma PlainAccounted(c: Config, s: St, e: Event)
    requires Accounted(c, s) && !s.closed
    requires e.SendOther? || e.Hello? || e.Adopt? || e.Unreadable? || e.RouteOpened? || e.LinkClosed?
    ensures Accounted(c, Step(c, s, e))
  {
    hide Tidy, Close;
    CloseAccounted(c, s);
    if e.SendOther? { CountCounted(s.window, c.frameSize(Other(e.tag))); }
  }

  /**
   * In every run: the unacknowledged frames are exactly those sent after the last acknowledged one, with their bytes;
   * the bytes counted as waiting are those of the slots, and stay within the cap.
   */
  lemma {:induction false} RunAccounting(c: Config, events: seq<Event>)
    ensures Accounted(c, Run(c, Init, events))
  {
    if events != [] {
      var init := events[..|events| - 1];
      RunAccounting(c, init);
      StepAccounted(c, Run(c, Init, init), events[|events| - 1]);
    }
  }
}

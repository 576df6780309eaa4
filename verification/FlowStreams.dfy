/**
 * What reaches the peer of a link end, stream by stream: the window, the cap, drops and resyncs never open a gap, and
 * what was sent together with what waits is exactly what the source last told (or, on a relay, what came from
 * downstream).
 */
module FlowStreams {
  import opened Streams
  import opened Flow
  import opened FlowAccounting
  import Sessions

  function CopyIn(c: Config, frames: seq<Frame>, h: nat, m: Member): Copy {
    CopyOf(c.apply, frames, h, m)
  }

  /** The copy once what a slot holds is received too: its base, then its ops. */
  function WithSlot(c: Config, copy: Copy, slot: Slot): Copy {
    match slot
    case UnitSlot => copy
    case StateSlot(base, ops, _, _, _) =>
      Receive(c.apply, if base.Some? then Receive(c.apply, copy, base.value) else copy, Ops(ops))
  }

  /** The peer's copy of stream (h, m) after every frame sent and then the waiting slot. */
  function View(c: Config, s: St, h: nat, m: Member): Copy {
    var k := StateKey(h, m);
    var copy := CopyIn(c, s.wire, h, m);
    if k in s.waiting.slots then WithSlot(c, copy, s.waiting.slots[k]) else copy
  }

  predicate IsLocal(s: St, h: nat) { h in s.served && s.served[h].Local? }
  predicate IsRelay(s: St, h: nat) { h in s.served && s.served[h].Relay? }
  predicate Awaits(s: St, h: nat, m: Member) { IsRelay(s, h) && m in s.served[h].awaiting }
  predicate HasSlot(s: St, h: nat, m: Member) { StateKey(h, m) in s.waiting.slots }

  /** A reset built from the current value will replace whatever the stream missed. */
  predicate Lazy(s: St, h: nat, m: Member) {
    HasSlot(s, h, m) && s.waiting.slots[StateKey(h, m)].StateSlot? && s.waiting.slots[StateKey(h, m)].lazy
  }

  /** What the feed's source told it last, as the copy of a receiver in step with its encoder. */
  function Told(feed: Feed): Copy {
    if feed.errored then Broken(feed.session, feed.next) else Copy(feed.seen, feed.session, feed.next)
  }

  predicate SlotOk(s: St, h: nat, m: Member) {
    HasSlot(s, h, m) ==>
      var slot := s.waiting.slots[StateKey(h, m)];
      && slot.StateSlot?
      && EmptyIfLazy(slot)
      && (IsLocal(s, h) || IsRelay(s, h))
      && (IsLocal(s, h) ==> slot.overflow.Resend? && HasFeed(s, h, m))
      && (IsRelay(s, h) ==>
            slot.overflow.Resync? && !slot.lazy && s.served[h].shaped && m !in s.served[h].urgent)
  }

  /**
   * The invariant of stream (h, m). Nothing is claimed of a relayed hold switched off while something waited (`cut`).
   */
  predicate Good(c: Config, s: St, h: nat, m: Member) {
    && SlotOk(s, h, m)
    && (h in s.served ==> h in s.used)
    && (h in s.cut ==> h in s.used && !IsLocal(s, h))
    && (h !in s.used ==> CopyIn(c, s.wire, h, m) == CopyIn(c, s.inbox, h, m) == Nothing)
    && (h !in s.cut ==>
          && CopyIn(c, s.wire, h, m) != Gap
          && View(c, s, h, m) != Gap
          && (HasFeed(s, h, m) ==> CopyIn(c, s.wire, h, m) != Nothing)
          && (HasFeed(s, h, m) && !Lazy(s, h, m) ==> View(c, s, h, m) == Told(s.served[h].feeds[m]))
          && (IsRelay(s, h) ==> RelayGood(c, s, h, m)))
  }

  /** A relayed stream: what went out and waits is what came in, unless a reset was asked for. */
  predicate RelayGood(c: Config, s: St, h: nat, m: Member)
    requires IsRelay(s, h)
  {
    && CopyIn(c, s.inbox, h, m) != Gap
    && (s.served[h].shaped <==> CopyIn(c, s.inbox, h, m) != Nothing)
    && (s.served[h].shaped ==> CopyIn(c, s.wire, h, m) != Nothing)
    && (!Awaits(s, h, m) ==> View(c, s, h, m) == CopyIn(c, s.inbox, h, m))
  }

  // --- what may happen to a stream while others are served ---

  /** The hold is served as before, as far as stream (h, m) is concerned. */
  predicate SameServed(s: St, t: St, h: nat, m: Member) {
    && (IsLocal(s, h) <==> IsLocal(t, h))
    && (IsRelay(s, h) <==> IsRelay(t, h))
    && (HasFeed(s, h, m) <==> HasFeed(t, h, m))
    && (HasFeed(s, h, m) ==> s.served[h].feeds[m] == t.served[h].feeds[m])
    && (IsRelay(s, h) ==>
          && s.served[h].shaped == t.served[h].shaped
          && (m in s.served[h].urgent <==> m in t.served[h].urgent)
          && (Awaits(s, h, m) ==> Awaits(t, h, m)))
    && (h in s.served <==> h in t.served)
    && s.used == t.used && s.cut == t.cut && s.inbox == t.inbox
  }

  predicate SameSlot(s: St, t: St, h: nat, m: Member) {
    && (HasSlot(s, h, m) <==> HasSlot(t, h, m))
    && (HasSlot(s, h, m) ==> s.waiting.slots[StateKey(h, m)] == t.waiting.slots[StateKey(h, m)])
    && (Awaits(t, h, m) <==> Awaits(s, h, m))
  }

  /** What waited was given up: for a reset from the current value, or for one asked of downstream. */
  predicate GivenUp(s: St, t: St, h: nat, m: Member) {
    HasSlot(s, h, m) &&
    if IsRelay(s, h) then !HasSlot(t, h, m) && Awaits(t, h, m)
    else HasSlot(t, h, m) && t.waiting.slots[StateKey(h, m)] == LazySlot
  }

  predicate Kept(c: Config, s: St, t: St, h: nat, m: Member) {
    && SameServed(s, t, h, m)
    && CopyIn(c, s.wire, h, m) == CopyIn(c, t.wire, h, m)
    && (SameSlot(s, t, h, m) || GivenUp(s, t, h, m))
  }

  lemma KeptGood(c: Config, s: St, t: St, h: nat, m: Member)
    requires Good(c, s, h, m) && Kept(c, s, t, h, m)
    ensures Good(c, t, h, m)
  {
  }

  lemma KeptTwice(c: Config, s: St, t: St, u: St, h: nat, m: Member)
    requires SlotOk(s, h, m) && Kept(c, s, t, h, m) && Kept(c, t, u, h, m)
    ensures Kept(c, s, u, h, m)
  {
  }

  lemma DropOther(c: Config, s: St, k: Key, h: nat, m: Member)
    requires SlotOk(s, h, m) && k != StateKey(h, m)
    ensures Kept(c, s, Drop(s, k), h, m) && SameSlot(s, Drop(s, k), h, m)
  {
    hide Without, Bytes, CopyOf;
  }

  lemma DropOwn(c: Config, s: St, h: nat, m: Member)
    requires SlotOk(s, h, m)
    ensures Kept(c, s, Drop(s, StateKey(h, m)), h, m) && SlotOk(Drop(s, StateKey(h, m)), h, m)
  {
    hide Without, Bytes, CopyOf;
  }

  lemma DropKept(c: Config, s: St, k: Key, h: nat, m: Member)
    requires SlotOk(s, h, m)
    ensures Kept(c, s, Drop(s, k), h, m) && SlotOk(Drop(s, k), h, m)
  {
    hide Drop;
    if k == StateKey(h, m) { DropOwn(c, s, h, m); } else { DropOther(c, s, k, h, m); }
  }

  lemma {:induction false} MakeRoomKept(c: Config, s: St, todo: seq<Key>, size: nat, current: Key, h: nat, m: Member)
    requires SlotOk(s, h, m)
    ensures var t := MakeRoom(c, s, todo, size, current); Kept(c, s, t, h, m) && SlotOk(t, h, m)
    decreases |todo|
  {
    if Fits(c, s.waiting, size) {
    } else if todo == [] {
      DropKept(c, s, current, h, m);
    } else {
      DropKept(c, s, todo[0], h, m);
      var t := if todo[0] != current && SlotSize(s.waiting.slots, todo[0]) > 0 then Drop(s, todo[0]) else s;
      MakeRoomKept(c, t, todo[1..], size, current, h, m);
      KeptTwice(c, s, t, MakeRoom(c, t, todo[1..], size, current), h, m);
    }
  }

  lemma AppendKept(c: Config, s: St, k: Key, ops: seq<WireOp>, h: nat, m: Member)
    requires SlotOk(s, h, m) && k != StateKey(h, m)
    ensures Kept(c, s, Append(c, s, k, ops), h, m)
  {
    MakeRoomKept(c, s, s.waiting.order, c.opsSize(ops), k, h, m);
  }

  lemma SendStateKept(c: Config, s: St, hold: nat, name: Member, body: Body, overflow: Overflow, h: nat, m: Member)
    requires SlotOk(s, h, m) && (h, m) != (hold, name)
    ensures Kept(c, s, SendState(c, s, hold, name, body, overflow), h, m)
  {
    var k := StateKey(hold, name);
    if k !in s.waiting.slots && !Full(c, s) {
      CopyOfPush(c.apply, s.wire, State(hold, name, body), h, m);
    } else {
      var w := if k in s.waiting.slots then s.waiting
               else Put(s.waiting, k, StateSlot(None, [], 0, false, overflow));
      PutKept(c, s, w, k, h, m);
      if body.Ops? {
        var t := s.(waiting := w);
        AppendKept(c, t, k, body.ops, h, m);
        KeptTwice(c, s, t, Append(c, t, k, body.ops), h, m);
      }
    }
  }

  lemma PutKept(c: Config, s: St, w: Waiting, k: Key, h: nat, m: Member)
    requires k != StateKey(h, m)
    requires SlotOk(s, h, m)
    requires w == s.waiting || exists slot :: w == Put(s.waiting, k, slot)
    ensures Kept(c, s, s.(waiting := w), h, m)
    ensures forall slot :: Kept(c, s, s.(waiting := Put(w, k, slot)), h, m)
    ensures SlotOk(s.(waiting := w), h, m)
  {
  }

  // --- a state frame of the stream itself ---

  lemma AppendView(c: Config, copy: Copy, slot: Slot, ops: seq<WireOp>, size: nat)
    requires slot.StateSlot?
    ensures WithSlot(c, copy, slot.(ops := slot.ops + ops, size := size)) ==
      Receive(c.apply, WithSlot(c, copy, slot), Ops(ops))
  {
    ReceiveConcatenated(c.apply, if slot.base.Some? then Receive(c.apply, copy, slot.base.value) else copy, slot.ops,
        ops);
  }

  /** May stream (h, m) have a slot with this overflow. */
  predicate Slottable(s: St, h: nat, m: Member, overflow: Overflow) {
    if overflow.Resend? then HasFeed(s, h, m) else IsRelay(s, h) && s.served[h].shaped && m !in s.served[h].urgent
  }

  /** What a state frame does to its own stream: it is received in order, or the stream is given up. */
  predicate Received(c: Config, s: St, t: St, h: nat, m: Member, body: Body) {
    && SameServed(s, t, h, m)
    && SlotOk(t, h, m)
    && (|| (Lazy(t, h, m) && CopyIn(c, s.wire, h, m) == CopyIn(c, t.wire, h, m))
        || (IsRelay(t, h) && !HasSlot(t, h, m) && Awaits(t, h, m) && CopyIn(c, s.wire, h, m) == CopyIn(c, t.wire, h, m))
        || (&& !Lazy(t, h, m)
            && View(c, t, h, m) == Receive(c.apply, View(c, s, h, m), body)
            && (Awaits(t, h, m) <==> Awaits(s, h, m))
            && (CopyIn(c, s.wire, h, m) == CopyIn(c, t.wire, h, m) || (!HasSlot(s, h, m) && !HasSlot(t, h, m)))))
  }

  lemma AppendReceived(c: Config, s: St, h: nat, m: Member, ops: seq<WireOp>)
    requires SlotOk(s, h, m) && HasSlot(s, h, m) && !Lazy(s, h, m)
    ensures Received(c, s, Append(c, s, StateKey(h, m), ops), h, m, Ops(ops))
  {
    var k := StateKey(h, m);
    var size := c.opsSize(ops);
    MakeRoomKept(c, s, s.waiting.order, size, k, h, m);
    var t := if Fits(c, s.waiting, size) then s else MakeRoom(c, s, s.waiting.order, size, k);
    if SameSlot(s, t, h, m) {
      var slot := t.waiting.slots[k];
      AppendView(c, CopyIn(c, s.wire, h, m), slot, ops, slot.size + size);
    }
  }

  /** A base makes whatever the copy was irrelevant, short of a gap. */
  lemma BaseView(c: Config, copy: Copy, slot: Slot, body: Body)
    requires slot.StateSlot? && !body.Ops? && copy != Gap && copy != Nothing && WithSlot(c, copy, slot) != Gap
    ensures WithSlot(c, copy, slot.(base := Some(body), ops := [], size := 0, lazy := false)) ==
      Receive(c.apply, WithSlot(c, copy, slot), body)
  {
    OpsShape(c.apply, if slot.base.Some? then Receive(c.apply, copy, slot.base.value) else copy, slot.ops);
  }

  lemma SendStateReceived(c: Config, s: St, h: nat, m: Member, body: Body, overflow: Overflow)
    requires SlotOk(s, h, m) && Slottable(s, h, m, overflow)
    requires CopyIn(c, s.wire, h, m) != Gap && CopyIn(c, s.wire, h, m) != Nothing && View(c, s, h, m) != Gap
    ensures Received(c, s, SendState(c, s, h, m, body, overflow), h, m, body)
  {
    var k := StateKey(h, m);
    var t := SendState(c, s, h, m, body, overflow);
    if k !in s.waiting.slots && !Full(c, s) {
      CopyOfPush(c.apply, s.wire, State(h, m, body), h, m);
    } else {
      var created := StateSlot(None, [], 0, false, overflow);
      var w := if k in s.waiting.slots then s.waiting else Put(s.waiting, k, created);
      var u := s.(waiting := w);
      assert View(c, u, h, m) == View(c, s, h, m);
      if !body.Ops? {
        BaseView(c, CopyIn(c, s.wire, h, m), w.slots[k], body);
      } else if !w.slots[k].lazy {
        AppendReceived(c, u, h, m, body.ops);
      }
    }
  }

  // --- fresh feeds ---

  lemma PushKept(c: Config, s: St, f: Frame, h: nat, m: Member)
    requires !IsState(f, h, m) && !IsShape(f, h)
    ensures Kept(c, s, Send(c, s, f), h, m)
  {
    CopyOfPush(c.apply, s.wire, f, h, m);
  }

  /** The invariant, but for what the feed was told. */
  predicate Sound(c: Config, s: St, h: nat, m: Member) {
    && SlotOk(s, h, m)
    && (h in s.served ==> h in s.used)
    && (h in s.cut ==> h in s.used && !IsLocal(s, h))
    && (h !in s.used ==> CopyIn(c, s.wire, h, m) == CopyIn(c, s.inbox, h, m) == Nothing)
    && (h !in s.cut ==>
          && CopyIn(c, s.wire, h, m) != Gap
          && View(c, s, h, m) != Gap
          && (HasFeed(s, h, m) ==> CopyIn(c, s.wire, h, m) != Nothing)
          && (IsRelay(s, h) ==> RelayGood(c, s, h, m)))
  }

  lemma ResendOwn(c: Config, s: St, h: nat, m: Member)
    requires Sound(c, s, h, m) && !HasSlot(s, h, m)
    ensures Good(c, ResendNow(c, s, h, m), h, m)
  {
    if HasFeed(s, h, m) {
      BaseTold(c, CopyIn(c, s.wire, h, m), if (h, m) in s.values then s.values[(h, m)] else s.served[h].feeds[m].seen,
               s.nextSession, true);
      if (h, m) in s.values {
        CopyOfPush(c.apply, s.wire, State(h, m, Base(c, s.values[(h, m)], s.nextSession, true)), h, m);
      }
    }
  }

  lemma ResendGood(c: Config, s: St, hold: nat, name: Member, h: nat, m: Member)
    requires Good(c, s, h, m) && (h, m) != (hold, name)
    ensures Good(c, ResendNow(c, s, hold, name), h, m)
  {
    if HasFeed(s, hold, name) && (hold, name) in s.values {
      CopyOfPush(c.apply, s.wire, State(hold, name, Base(c, s.values[(hold, name)], s.nextSession, true)), h, m);
    }
    assert Kept(c, s, ResendNow(c, s, hold, name), h, m);
    KeptGood(c, s, ResendNow(c, s, hold, name), h, m);
  }

  predicate Attached(s: St, hold: nat, listed: seq<Member>, m: Member) {
    m in listed && Attachable(s, hold, m)
  }

  /** After the snapshots of a unit, the copy of each member it lists is what its new feed was told. */
  lemma {:induction false} AttachAllTold(c: Config, s: St, hold: nat, listed: seq<Member>, copy: Copy, h: nat,
      m: Member)
    requires (h == hold ==> copy != Gap && copy != Nothing) && IsLocal(s, hold)
    ensures var (t, snaps) := AttachAll(c, s, hold, listed);
      var after := ReceiveAll(c.apply, copy, snaps, h, m);
      && IsLocal(t, hold)
      && (h != hold ==> h in s.served <==> h in t.served)
      && (h != hold && h in s.served ==> s.served[h] == t.served[h])
      && (if h == hold && Attached(s, hold, listed, m)
          then HasFeed(t, hold, m) && after == Told(t.served[hold].feeds[m])
          else after == copy)
      && (h == hold && !Attached(s, hold, listed, m) ==>
            (HasFeed(s, hold, m) <==> HasFeed(t, hold, m)) &&
            (HasFeed(s, hold, m) ==> s.served[hold].feeds[m] == t.served[hold].feeds[m]))
    decreases |listed|
  {
    if listed != [] {
      var name := listed[0];
      assert m in listed <==> m == name || m in listed[1..];
      if !Attachable(s, hold, name) {
        AttachAllTold(c, s, hold, listed[1..], copy, h, m);
      } else {
        var f := State(hold, name, Base(c, s.values[(hold, name)], s.nextSession, false));
        var u := Attach(c, s, hold, name);
        CopyAfterOne(c.apply, copy, f, h, m);
        var next := ReceiveAll(c.apply, copy, [f], h, m);
        AttachAllTold(c, u, hold, listed[1..], next, h, m);
        ReceiveAllAppend(c.apply, copy, [f], AttachAll(c, u, hold, listed[1..]).1, h, m);
      }
    }
  }

  lemma CopyAfterOne(apply: Apply, copy: Copy, f: Frame, h: nat, m: Member)
    ensures ReceiveAll(apply, copy, [f], h, m) == ReceiveFrame(apply, copy, f, h, m)
  {
    assert [f][..0] == [];
  }

  lemma {:induction false} LackingElements(members: seq<Member>, feeds: map<Member, Feed>)
    ensures forall m :: m in Lacking(members, feeds) <==> m in members && m !in feeds
  {
    if members != [] {
      LackingElements(members[1..], feeds);
      assert forall m :: m in members <==> m == members[0] || m in members[1..];
    }
  }

  lemma SendUnitGood(c: Config, s: St, hold: nat, h: nat, m: Member)
    requires Good(c, s, h, m)
    ensures Good(c, SendUnit(c, s, hold), h, m)
  {
    SendUnitWaiting(c, s, hold);
    if h == hold && IsLocal(s, hold) && hold in s.shapes {
      SendUnitOwn(c, s, h, m);
    } else if IsLocal(s, hold) && hold in s.shapes {
      SendUnitOther(c, s, hold, h, m);
    }
  }

  /** The frames and feeds of a unit. */
  lemma SendUnitParts(c: Config, s: St, hold: nat, h: nat, m: Member)
    requires IsLocal(s, hold) && hold in s.shapes
    ensures var local := s.served[hold];
      var members := if local.wantsState then s.shapes[hold] else [];
      var listed := Lacking(members, local.feeds);
      var t := SendUnit(c, s, hold);
      var u := s.(served := s.served[hold := local.(unitSent := true)]);
      var (v, snaps) := AttachAll(c, u, hold, listed);
      && t == s.(waiting := Discard(s.waiting, {UnitKey(hold)}), served := v.served, nextSession := v.nextSession,
                 wire := t.wire, window := t.window)
      && CopyIn(c, t.wire, h, m) ==
           ReceiveAll(c.apply, ReceiveFrame(c.apply, CopyIn(c, s.wire, h, m), Shape(hold, Names(snaps)), h, m), snaps,
               h, m)
  {
    var t0 := s.(waiting := Discard(s.waiting, {UnitKey(hold)}));
    var local := s.served[hold];
    var members := if local.wantsState then s.shapes[hold] else [];
    var listed := Lacking(members, local.feeds);
    var u := s.(served := s.served[hold := local.(unitSent := true)]);
    var u' := t0.(served := t0.served[hold := local.(unitSent := true)]);
    AttachAllSame(c, u, u', hold, listed);
    AttachAllOrder(c, u', hold, listed);
    var (v, snaps) := AttachAll(c, u', hold, listed);
    var f := Shape(hold, Names(snaps));
    SendAllOrder(c, Send(c, v, f), snaps);
    ReceiveAllAppend(c.apply, Nothing, s.wire + [f], snaps, h, m);
    CopyOfPush(c.apply, s.wire, f, h, m);
  }

  /** Attaching looks at the served holds and the current values only. */
  lemma {:induction false} AttachAllSame(c: Config, s: St, t: St, hold: nat, listed: seq<Member>)
    requires s.served == t.served && s.values == t.values && s.nextSession == t.nextSession
    ensures var (u, f) := AttachAll(c, s, hold, listed); var (v, g) := AttachAll(c, t, hold, listed);
      u.served == v.served && u.nextSession == v.nextSession && f == g
    decreases |listed|
  {
    if listed != [] {
      if Attachable(s, hold, listed[0]) {
        AttachAllSame(c, Attach(c, s, hold, listed[0]), Attach(c, t, hold, listed[0]), hold, listed[1..]);
      } else {
        AttachAllSame(c, s, t, hold, listed[1..]);
      }
    }
  }

  lemma SendUnitOwn(c: Config, s: St, h: nat, m: Member)
    requires Good(c, s, h, m) && IsLocal(s, h) && h in s.shapes
    ensures Good(c, SendUnit(c, s, h), h, m)
  {
    hide SendUnit, ReceiveAll, AttachAll, CopyOf, Lacking, Names, Without, Bytes;
    var local := s.served[h];
    var members := if local.wantsState then s.shapes[h] else [];
    var listed := Lacking(members, local.feeds);
    var u := s.(served := s.served[h := local.(unitSent := true)]);
    SendUnitParts(c, s, h, h, m);
    var snaps := AttachAll(c, u, h, listed).1;
    AttachAllTold(c, u, h, listed, ReceiveFrame(c.apply, CopyIn(c, s.wire, h, m), Shape(h, Names(snaps)), h, m), h, m);
    LackingElements(members, local.feeds);
  }

  lemma SendUnitOther(c: Config, s: St, hold: nat, h: nat, m: Member)
    requires IsLocal(s, hold) && hold in s.shapes && h != hold && Good(c, s, h, m)
    ensures Good(c, SendUnit(c, s, hold), h, m)
  {
    hide SendUnit, ReceiveAll, AttachAll;
    var local := s.served[hold];
    var members := if local.wantsState then s.shapes[hold] else [];
    var listed := Lacking(members, local.feeds);
    var u := s.(served := s.served[hold := local.(unitSent := true)]);
    SendUnitParts(c, s, hold, h, m);
    AttachAllTold(c, u, hold, listed, CopyIn(c, s.wire, h, m), h, m);
    KeptGood(c, s, SendUnit(c, s, hold), h, m);
  }

  // --- flushing ---

  lemma SendSlotOther(c: Config, s: St, k: Key, slot: Slot, h: nat, m: Member)
    requires (k.UnitKey? <==> slot.UnitSlot?) && k != StateKey(h, m)
    requires Good(c, s, h, m)
    ensures Good(c, SendSlot(c, s, k, slot), h, m)
  {
    match slot
    case UnitSlot => SendUnitGood(c, s, k.hold, h, m);
    case StateSlot(base, ops, _, lazy, overflow) =>
      if lazy {
        ResendGood(c, s, k.hold, k.m, h, m);
      } else {
        if base.Some? {
          PushKept(c, s, State(k.hold, k.m, base.value), h, m);
          KeptGood(c, s, Send(c, s, State(k.hold, k.m, base.value)), h, m);
        }
        var t := if base.Some? then Send(c, s, State(k.hold, k.m, base.value)) else s;
        PushKept(c, t, State(k.hold, k.m, Ops(ops)), h, m);
        KeptGood(c, t, Send(c, t, State(k.hold, k.m, Ops(ops))), h, m);
      }
  }

  lemma SendSlotOwn(c: Config, s: St, h: nat, m: Member)
    requires Good(c, s, h, m) && s.waiting.order != [] && s.waiting.order[0] == StateKey(h, m) && HasSlot(s, h, m)
    ensures Good(c, SendSlot(c, s.(waiting := Pop(s.waiting)), StateKey(h, m), s.waiting.slots[StateKey(h, m)]), h, m)
  {
    hide ResendNow;
    var k := StateKey(h, m);
    var t := s.(waiting := Pop(s.waiting));
    var slot := s.waiting.slots[k];
    if slot.lazy {
      ResendOwn(c, t, h, m);
    } else {
      if slot.base.Some? { CopyOfPush(c.apply, t.wire, State(h, m, slot.base.value), h, m); }
      var u := if slot.base.Some? then Send(c, t, State(h, m, slot.base.value)) else t;
      CopyOfPush(c.apply, u.wire, State(h, m, Ops(slot.ops)), h, m);
      var v := if slot.ops != [] then Send(c, u, State(h, m, Ops(slot.ops))) else u;
      assert h !in s.cut ==> CopyIn(c, v.wire, h, m) == WithSlot(c, CopyIn(c, s.wire, h, m), slot);
    }
  }

  lemma {:induction false} FlushGood(c: Config, s: St, h: nat, m: Member)
    requires Good(c, s, h, m)
    ensures Good(c, Flush(c, s), h, m)
    decreases |s.waiting.order|
  {
    if Flushable(s.waiting) && !Full(c, s) {
      var k := s.waiting.order[0];
      var t := s.(waiting := Pop(s.waiting));
      if k == StateKey(h, m) {
        SendSlotOwn(c, s, h, m);
      } else {
        KeptGood(c, s, t, h, m);
        SendSlotOther(c, t, k, s.waiting.slots[k], h, m);
      }
      SendSlotWaiting(c, t, k, s.waiting.slots[k]);
      FlushGood(c, SendSlot(c, t, k, s.waiting.slots[k]), h, m);
    }
  }

  lemma QueueUnitGood(c: Config, s: St, hold: nat, h: nat, m: Member)
    requires Good(c, s, h, m)
    ensures Good(c, QueueUnit(c, s, hold), h, m)
  {
    var k := UnitKey(hold);
    PutKept(c, s, s.waiting, k, h, m);
    var t := if k in s.waiting.slots then s else s.(waiting := Put(s.waiting, k, UnitSlot));
    KeptGood(c, s, t, h, m);
    FlushGood(c, t, h, m);
  }

  lemma UnitGood(c: Config, s: St, hold: nat, h: nat, m: Member)
    requires Good(c, s, h, m)
    ensures Good(c, Unit(c, s, hold), h, m)
  {
    hide SendUnit, QueueUnit;
    if IsLocal(s, hold) && hold in s.shapes {
      var local := s.served[hold];
      var members := if local.wantsState then Members(s.shapes[hold]) else {};
      var left := local.feeds.Keys - members;
      var t := s.(waiting := Discard(s.waiting, set m | m in left :: StateKey(hold, m)),
                  served := s.served[hold := local.(feeds := local.feeds - left)]);
      LeftGood(c, s, hold, h, m);
      SendUnitGood(c, t, hold, h, m);
      QueueUnitGood(c, t, hold, h, m);
    }
  }

  /** Discarding the feeds and slots of the members no longer listed keeps the invariant of every stream. */
  lemma LeftGood(c: Config, s: St, hold: nat, h: nat, m: Member)
    requires Good(c, s, h, m) && IsLocal(s, hold) && hold in s.shapes
    ensures var local := s.served[hold];
      var left := local.feeds.Keys - (if local.wantsState then Members(s.shapes[hold]) else {});
      Good(c, s.(waiting := Discard(s.waiting, set m | m in left :: StateKey(hold, m)),
                 served := s.served[hold := local.(feeds := local.feeds - left)]), h, m)
  {
    var local := s.served[hold];
    var left := local.feeds.Keys - (if local.wantsState then Members(s.shapes[hold]) else {});
    assert StateKey(h, m) in (set m | m in left :: StateKey(hold, m)) <==> h == hold && m in left;
  }

  // --- events of the source ---

  lemma {:induction false} EncodedOps(c: Config, copy: Copy, session: nat, next: nat, ops: seq<Op>)
    requires copy.Copy? || copy.Broken?
    requires copy.session == session && copy.next == next
    ensures var after := ReceiveOps(c.apply, copy, Encode(session, next, ops));
      if copy.Copy? then after == Copy(ApplyAll(c.apply, copy.value, ops), session, next + |ops|)
      else after == Broken(session, next + |ops|)
  {
    if ops != [] {
      EncodedOps(c, copy, session, next, ops[..|ops| - 1]);
      var last := WireOp(session, next + |ops| - 1, ops[|ops| - 1]);
      var init := Encode(session, next, ops[..|ops| - 1]);
      assert Encode(session, next, ops) == init + [last];
      assert (init + [last])[..|init + [last]| - 1] == init;
    }
  }

  lemma FeedOpsOwn(c: Config, s: St, ops: seq<Op>, h: nat, m: Member)
    requires Good(c, s, h, m) && HasFeed(s, h, m)
    ensures Good(c, FeedOps(c, s, h, m, ops), h, m)
  {
    hide SendState, Encode, CopyOf;
    var feed := s.served[h].feeds[m];
    var t := Tell(s, h, m, feed.(next := feed.next + |ops|, seen := ApplyAll(c.apply, feed.seen, ops)));
    var body := Ops(Encode(feed.session, feed.next, ops));
    EncodedOps(c, Told(feed), feed.session, feed.next, ops);
    SendStateReceived(c, t, h, m, body, Resend);
    if Lazy(t, h, m) { LazyStays(c, t, h, m, body); }
  }

  lemma TellKept(c: Config, s: St, hold: nat, name: Member, feed: Feed, h: nat, m: Member)
    requires HasFeed(s, hold, name) && (h, m) != (hold, name)
    ensures Kept(c, s, Tell(s, hold, name, feed), h, m)
  {
  }

  lemma FeedOpsGood(c: Config, s: St, hold: nat, name: Member, ops: seq<Op>, h: nat, m: Member)
    requires Good(c, s, h, m)
    ensures Good(c, FeedOps(c, s, hold, name, ops), h, m)
  {
    hide SendState;
    if HasFeed(s, hold, name) {
      if (h, m) == (hold, name) {
        FeedOpsOwn(c, s, ops, h, m);
      } else {
        var feed := s.served[hold].feeds[name];
        var told := feed.(next := feed.next + |ops|, seen := ApplyAll(c.apply, feed.seen, ops));
        TellKept(c, s, hold, name, told, h, m);
        var t := Tell(s, hold, name, told);
        KeptGood(c, s, t, h, m);
        var body := Ops(Encode(feed.session, feed.next, ops));
        SendStateKept(c, t, hold, name, body, Resend, h, m);
        KeptGood(c, t, SendState(c, t, hold, name, body, Resend), h, m);
      }
    }
  }

  /** Ops that arrive while a reset will be built anyway are not kept. */
  lemma LazyStays(c: Config, s: St, h: nat, m: Member, body: Body)
    requires Lazy(s, h, m) && body.Ops?
    ensures SendState(c, s, h, m, body, Resend) == s
  {
  }

  lemma BaseTold(c: Config, copy: Copy, v: Value, session: nat, reset: bool)
    requires copy != Gap && copy != Nothing
    ensures var body := Base(c, v, session, reset);
      !body.Ops? && Receive(c.apply, copy, body) == Told(Feed(session, 0, v, !c.valid(v)))
  {
  }

  lemma FeedResetOwn(c: Config, s: St, v: Value, h: nat, m: Member)
    requires Good(c, s, h, m) && HasFeed(s, h, m)
    ensures Good(c, FeedReset(c, s, h, m, v), h, m)
  {
    hide SendState;
    var told := Feed(s.nextSession, 0, v, !c.valid(v));
    var t := Tell(s, h, m, told).(nextSession := s.nextSession + 1);
    var body := Base(c, v, s.nextSession, true);
    BaseTold(c, View(c, s, h, m), v, s.nextSession, true);
    assert View(c, t, h, m) == View(c, s, h, m);
    SendStateReceived(c, t, h, m, body, Resend);
  }

  lemma FeedResetGood(c: Config, s: St, hold: nat, name: Member, v: Value, h: nat, m: Member)
    requires Good(c, s, h, m)
    ensures Good(c, FeedReset(c, s, hold, name, v), h, m)
  {
    hide SendState;
    if HasFeed(s, hold, name) {
      if (h, m) == (hold, name) {
        FeedResetOwn(c, s, v, h, m);
      } else {
        var told := Feed(s.nextSession, 0, v, !c.valid(v));
        TellKept(c, s, hold, name, told, h, m);
        var t := Tell(s, hold, name, told).(nextSession := s.nextSession + 1);
        KeptGood(c, s, t, h, m);
        var body := Base(c, v, s.nextSession, true);
        SendStateKept(c, t, hold, name, body, Resend, h, m);
        KeptGood(c, t, SendState(c, t, hold, name, body, Resend), h, m);
      }
    }
  }

  lemma ResetLaterGood(c: Config, s: St, hold: nat, name: Member, h: nat, m: Member)
    requires Good(c, s, h, m) && HasFeed(s, hold, name)
    ensures Good(c, ResetLater(c, s, hold, name), h, m)
  {
    hide Good;
    var k := StateKey(hold, name);
    if !(k in s.waiting.slots && s.waiting.slots[k].UnitSlot?) {
      var overflow := if k in s.waiting.slots then s.waiting.slots[k].overflow else Resend;
      var t := s.(waiting := Put(s.waiting, k, LazySlot.(overflow := overflow)));
      LazyGood(c, s, hold, name, h, m);
      FlushGood(c, t, h, m);
    }
  }

  lemma LazyGood(c: Config, s: St, hold: nat, name: Member, h: nat, m: Member)
    requires Good(c, s, h, m) && HasFeed(s, hold, name)
    requires var k := StateKey(hold, name); k in s.waiting.slots ==> s.waiting.slots[k].StateSlot?
    ensures var k := StateKey(hold, name);
      var overflow := if k in s.waiting.slots then s.waiting.slots[k].overflow else Resend;
      Good(c, s.(waiting := Put(s.waiting, k, LazySlot.(overflow := overflow))), h, m)
  {
    if StateKey(hold, name) != StateKey(h, m) { PutKept(c, s, s.waiting, StateKey(hold, name), h, m); }
  }

  // --- relays ---

  lemma RelayShapeOwn(c: Config, s: St, h: nat, listed: seq<Member>, m: Member)
    requires Good(c, s, h, m) && IsRelay(s, h)
    ensures Good(c, RelayShape(c, s, h, listed), h, m)
  {
    hide WithSlot, Members, Count, CopyOf, ReceiveAll;
    var f := Shape(h, listed);
    var r := s.served[h];
    CopyOfPush(c.apply, s.wire, f, h, m);
    CopyOfPush(c.apply, s.inbox, f, h, m);
    var t := RelayShape(c, s, h, listed);
    assert t.waiting == s.waiting && t.wire == s.wire + [f] && t.inbox == s.inbox + [f];
    assert IsRelay(t, h) && t.served[h].shaped && t.served[h].awaiting == r.awaiting;
    assert r.shaped ==> t.served[h] == r;
    hide RelayShape, Send;
    if h !in s.cut {
      if r.shaped {
        assert CopyIn(c, t.wire, h, m) == CopyIn(c, s.wire, h, m);
        assert View(c, t, h, m) == View(c, s, h, m);
      } else {
        assert !HasSlot(s, h, m);
      }
    }
  }

  lemma RelayShapeGood(c: Config, s: St, hold: nat, listed: seq<Member>, h: nat, m: Member)
    requires Good(c, s, h, m)
    ensures Good(c, RelayShape(c, s, hold, listed), h, m)
  {
    hide Good, RelayShape;
    if !IsRelay(s, hold) {
      assert RelayShape(c, s, hold, listed) == s by { NotRelayed(c, s, hold, listed); }
    } else if h == hold {
      RelayShapeOwn(c, s, h, listed, m);
    } else {
      RelayShapeOther(c, s, hold, listed, h, m);
    }
  }

  lemma NotRelayed(c: Config, s: St, hold: nat, listed: seq<Member>)
    requires !IsRelay(s, hold)
    ensures RelayShape(c, s, hold, listed) == s
  {
  }

  lemma RelayShapeOther(c: Config, s: St, hold: nat, listed: seq<Member>, h: nat, m: Member)
    requires Good(c, s, h, m) && IsRelay(s, hold) && h != hold
    ensures Good(c, RelayShape(c, s, hold, listed), h, m)
  {
    hide WithSlot, Members, Count, Good;
    var t := RelayShape(c, s, hold, listed);
    CopyOfPush(c.apply, s.wire, Shape(hold, listed), h, m);
    CopyOfPush(c.apply, s.inbox, Shape(hold, listed), h, m);
    assert t == s.(served := t.served, wire := s.wire + [Shape(hold, listed)], inbox := t.inbox, window := t.window);
    InboxOther(c, s, t, h, m);
  }

  /** A frame from downstream for another stream. */
  lemma InboxOther(c: Config, s: St, t: St, h: nat, m: Member)
    requires Good(c, s, h, m) && Kept(c, s, t.(inbox := s.inbox), h, m)
    requires CopyIn(c, t.inbox, h, m) == CopyIn(c, s.inbox, h, m)
    ensures Good(c, t, h, m)
  {
    hide WithSlot;
    KeptGood(c, s, t.(inbox := s.inbox), h, m);
  }

  /** What downstream (a link end like this one) may send: after the hold's shape, and without a gap. */
  predicate HonestFrame(c: Config, s: St, f: Frame) {
    f.State? && IsRelay(s, f.hold) ==>
      if f.hold in s.cut then s.served[f.hold].shaped else CopyIn(c, s.inbox + [f], f.hold, f.m) != Gap
  }

  lemma RelayStateOwn(c: Config, s: St, h: nat, m: Member, body: Body)
    requires Good(c, s, h, m) && IsRelay(s, h) && HonestFrame(c, s, State(h, m, body)) && h !in s.cut
    ensures Good(c, RelayState(c, s, h, m, body), h, m)
  {
    hide SendState;
    var f := State(h, m, body);
    var r := s.served[h];
    var t := s.(inbox := s.inbox + [f]);
    CopyOfPush(c.apply, s.inbox, f, h, m);
    CopyOfPush(c.apply, s.wire, f, h, m);
    if !(m in r.awaiting && body.Ops?) {
      var u := t.(served := t.served[h := r.(awaiting := r.awaiting - {m}, urgent := r.urgent - {m})]);
      if m !in r.urgent {
        SendStateReceived(c, u, h, m, body, Resync);
      }
    }
  }

  lemma RelayStateToggled(c: Config, s: St, h: nat, m: Member, body: Body)
    requires Good(c, s, h, m) && IsRelay(s, h) && HonestFrame(c, s, State(h, m, body)) && h in s.cut
    ensures Good(c, RelayState(c, s, h, m, body), h, m)
  {
    hide SendState;
    var r := s.served[h];
    var t := s.(inbox := s.inbox + [State(h, m, body)]);
    if !(m in r.awaiting && body.Ops?) && m !in r.urgent {
      var u := t.(served := t.served[h := r.(awaiting := r.awaiting - {m}, urgent := r.urgent - {m})]);
      SendStateSlotOk(c, u, h, m, body, Resync);
    }
  }

  predicate SlotKindKept(s: St, t: St, h: nat, m: Member) {
    && SlotOk(t, h, m)
    && IsRelay(t, h) == IsRelay(s, h) && IsLocal(t, h) == IsLocal(s, h)
    && t.used == s.used && t.cut == s.cut && (h in s.served <==> h in t.served)
  }

  lemma AppendSlotOk(c: Config, s: St, h: nat, m: Member, ops: seq<WireOp>)
    requires SlotOk(s, h, m) && HasSlot(s, h, m)
    ensures SlotKindKept(s, Append(c, s, StateKey(h, m), ops), h, m)
  {
    MakeRoomKept(c, s, s.waiting.order, c.opsSize(ops), StateKey(h, m), h, m);
  }

  /** Whatever is sent, the slot of the stream stays of the right kind. */
  lemma SendStateSlotOk(c: Config, s: St, h: nat, m: Member, body: Body, overflow: Overflow)
    requires SlotOk(s, h, m) && Slottable(s, h, m, overflow)
    ensures SlotKindKept(s, SendState(c, s, h, m, body, overflow), h, m)
  {
    var k := StateKey(h, m);
    var created := StateSlot(None, [], 0, false, overflow);
    var w := if k in s.waiting.slots then s.waiting else Put(s.waiting, k, created);
    if (k in s.waiting.slots || Full(c, s)) && body.Ops? {
      AppendSlotOk(c, s.(waiting := w), h, m, body.ops);
    }
  }

  lemma RelayStateGood(c: Config, s: St, hold: nat, name: Member, body: Body, h: nat, m: Member)
    requires Good(c, s, h, m)
    requires (h, m) == (hold, name) ==> HonestFrame(c, s, State(h, m, body))
    ensures Good(c, RelayState(c, s, hold, name, body), h, m)
  {
    if IsRelay(s, hold) {
      if (h, m) != (hold, name) {
        RelayStateOther(c, s, hold, name, body, h, m);
      } else if h in s.cut {
        RelayStateToggled(c, s, h, m, body);
      } else {
        RelayStateOwn(c, s, h, m, body);
      }
    }
  }

  lemma RelayStateOther(c: Config, s: St, hold: nat, name: Member, body: Body, h: nat, m: Member)
    requires Good(c, s, h, m) && IsRelay(s, hold) && (h, m) != (hold, name)
    ensures Good(c, RelayState(c, s, hold, name, body), h, m)
  {
    hide SendState, WithSlot, Good, Kept, CopyOf;
    var f := State(hold, name, body);
    var r := s.served[hold];
    var t := s.(inbox := s.inbox + [f]);
    InboxPushed(c, s, f, h, m);
    if !(name in r.awaiting && body.Ops?) {
      var u := t.(served := t.served[hold := r.(awaiting := r.awaiting - {name}, urgent := r.urgent - {name})]);
      OtherMemberKept(c, t, hold, name, h, m);
      KeptGood(c, t, u, h, m);
      PushKept(c, u, f, h, m);
      GoodSlot(c, u, h, m);
      SendStateKept(c, u, hold, name, body, Resync, h, m);
      KeptGood(c, u, RelayState(c, s, hold, name, body), h, m);
    }
  }

  lemma GoodSlot(c: Config, s: St, h: nat, m: Member)
    requires Good(c, s, h, m)
    ensures SlotOk(s, h, m)
  {
  }

  lemma InboxPushed(c: Config, s: St, f: Frame, h: nat, m: Member)
    requires Good(c, s, h, m) && !IsState(f, h, m) && !IsShape(f, h)
    ensures Good(c, s.(inbox := s.inbox + [f]), h, m)
  {
    hide WithSlot;
    CopyOfPush(c.apply, s.inbox, f, h, m);
    InboxOther(c, s, s.(inbox := s.inbox + [f]), h, m);
  }

  /** What one member of a relayed hold awaits is nothing to another. */
  lemma OtherMemberKept(c: Config, s: St, hold: nat, name: Member, h: nat, m: Member)
    requires IsRelay(s, hold) && (h, m) != (hold, name)
    ensures var r := s.served[hold];
      Kept(c, s, s.(served := s.served[hold := r.(awaiting := r.awaiting - {name}, urgent := r.urgent - {name})]), h, m)
  {
  }

  // --- every event ---

  /**
   * What a peer and a downstream link may do, as far as stream (h, m) is concerned: hold ids are new, and what is
   * relayed arrives after the shape and without a gap.
   */
  predicate Admissible(c: Config, s: St, e: Event, h: nat, m: Member) {
    s.closed ||
    match e
    case HoldLocal(hold, _, _) => hold == h ==> h in s.served || h !in s.used
    case HoldRelay(hold, _, _) => hold == h ==> h in s.served || h !in s.used
    case FromDown(f) => IsState(f, h, m) ==> HonestFrame(c, s, f)
    case _ => true
  }

  lemma WantGood(c: Config, s: St, hold: nat, wanted: bool, h: nat, m: Member)
    requires Good(c, s, h, m)
    ensures Good(c, OnWantState(c, s, hold, wanted), h, m)
  {
    hide Unit, Good, CopyOf, Discard;
    if IsLocal(s, hold) && s.served[hold].wantsState != wanted && wanted {
      var t := s.(served := s.served[hold := s.served[hold].(wantsState := wanted)]);
      assert Kept(c, s, t, h, m);
      KeptGood(c, s, t, h, m);
      UnitGood(c, t, hold, h, m);
    } else {
      UnwantGood(c, s, hold, wanted, h, m);
    }
  }

  lemma UnwantGood(c: Config, s: St, hold: nat, wanted: bool, h: nat, m: Member)
    requires Good(c, s, h, m) && !(IsLocal(s, hold) && s.served[hold].wantsState != wanted && wanted)
    ensures Good(c, OnWantState(c, s, hold, wanted), h, m)
  {
    hide Unit, CopyOf, Discard, HoldKeys;
    HoldDiscarded(c, s, hold, h, m);
    if IsRelay(s, hold) && s.served[hold].wanted && !wanted && !Unsettled(s, hold) { SettledKept(c, s, hold, h, m); }
  }

  /** Switching off a relayed hold of which nothing waits and nothing is awaited loses nothing. */
  lemma SettledKept(c: Config, s: St, hold: nat, h: nat, m: Member)
    requires IsRelay(s, hold) && s.served[hold].wanted && !Unsettled(s, hold)
    ensures Kept(c, s, RelayWant(s, hold, false), h, m)
  {
    assert HoldKeys(s.waiting, hold) == {};
    assert s.waiting.slots - {} == s.waiting.slots;
  }

  lemma HoldDiscarded(c: Config, s: St, hold: nat, h: nat, m: Member)
    ensures var w := Discard(s.waiting, HoldKeys(s.waiting, hold));
      if h == hold then StateKey(h, m) !in w.slots
      else StateKey(h, m) in w.slots <==> HasSlot(s, h, m)
    ensures var w := Discard(s.waiting, HoldKeys(s.waiting, hold));
      HasSlot(s, h, m) && h != hold ==> w.slots[StateKey(h, m)] == s.waiting.slots[StateKey(h, m)]
  {
  }

  lemma FromDownGood(c: Config, s: St, f: Frame, h: nat, m: Member)
    requires Good(c, s, h, m) && (IsState(f, h, m) ==> HonestFrame(c, s, f)) && !s.closed
    ensures Good(c, Step(c, s, FromDown(f)), h, m)
  {
    match f
    case Shape(hold, listed) => RelayShapeGood(c, s, hold, listed, h, m);
    case State(hold, name, body) => RelayStateGood(c, s, hold, name, body, h, m);
    case Other(_) =>
  }

  lemma AckGood(c: Config, s: St, n: nat, h: nat, m: Member)
    requires Good(c, s, h, m)
    ensures Good(c, OnAck(c, s, n), h, m)
  {
    if AckInRange(s.window, n) {
      var t := s.(window := Acknowledge(s.window, n));
      KeptGood(c, s, t, h, m);
      FlushGood(c, t, h, m);
    }
  }

  lemma OnHoldGood(c: Config, s: St, hold: nat, served: Served, h: nat, m: Member)
    requires Good(c, s, h, m) && hold !in s.served && (hold == h ==> h !in s.used)
    requires served.Local? ==> served.feeds == map[]
    requires served.Relay? ==> !served.shaped
    ensures Good(c, OnHold(s, hold, served), h, m)
  {
    hide WithSlot;
    if h != hold { assert SameSlot(s, OnHold(s, hold, served), h, m); }
  }

  lemma LiveGood(c: Config, s: St, hold: nat, members: seq<Member>, h: nat, m: Member)
    requires Good(c, s, h, m)
    ensures Good(c, Unit(c, s.(shapes := s.shapes[hold := members]), hold), h, m)
  {
    hide Unit;
    var t := s.(shapes := s.shapes[hold := members]);
    KeptGood(c, s, t, h, m);
    UnitGood(c, t, hold, h, m);
  }

  lemma HoldGood(c: Config, s: St, e: Event, h: nat, m: Member)
    requires Good(c, s, h, m) && Admissible(c, s, e, h, m) && !s.closed
    requires e.HoldLocal? || e.HoldRelay?
    ensures Good(c, Step(c, s, e), h, m)
  {
    hide Good, Unit;
    if e.hold in s.served {
      CloseGood(c, s, h, m);
    } else if e.HoldLocal? {
      var served := Local(e.wantsState, e.again, false, map[]);
      OnHoldGood(c, s, e.hold, served, h, m);
      UnitGood(c, OnHold(s, e.hold, served), e.hold, h, m);
    } else {
      OnHoldGood(c, s, e.hold, Relay(e.again, e.wantsState, false, false, {}, {}), h, m);
    }
  }

  lemma AskResetGood(c: Config, s: St, hold: nat, name: Member, h: nat, m: Member)
    requires Good(c, s, h, m)
    ensures Good(c, OnResync(c, s, hold, name), h, m)
  {
    if HasFeed(s, hold, name) { ResetLaterGood(c, s, hold, name, h, m); }
  }

  lemma ReleaseGood(c: Config, s: St, hold: nat, h: nat, m: Member)
    requires Good(c, s, h, m)
    ensures Good(c, DropServed(s, hold), h, m)
  {
    HoldDiscarded(c, s, hold, h, m);
  }

  lemma CloseGood(c: Config, s: St, h: nat, m: Member)
    requires Good(c, s, h, m)
    ensures Good(c, Close(s), h, m)
  {
  }

  /** Events that touch no stream. */
  lemma PlainGood(c: Config, s: St, e: Event, h: nat, m: Member)
    requires Good(c, s, h, m) && (e.SendOther? || e.Hello? || e.Adopt? || e.Unreadable? || e.RouteOpened?)
    ensures Good(c, Step(c, s, e), h, m)
  {
    hide Good;
    if !s.closed {
      if e.SendOther? { PushKept(c, s, Other(e.tag), h, m); }
      KeptGood(c, s, Step(c, s, e), h, m);
    }
  }

  lemma StepGood(c: Config, s: St, e: Event, h: nat, m: Member)
    requires Good(c, s, h, m) && Admissible(c, s, e, h, m)
    ensures Good(c, Step(c, s, e), h, m)
  {
    hide Good, Kept, OnAck, OnHold, Unit, FeedOps, FeedReset, OnWantState, OnResync, RelayShape, RelayState, DropServed;
    if s.closed { return; }
    match e
    case SendOther(_) => PlainGood(c, s, e, h, m);
    case Hello(_) => PlainGood(c, s, e, h, m);
    case Ack(n) => AckGood(c, s, n, h, m);
    case HoldLocal(_, _, _) => HoldGood(c, s, e, h, m);
    case HoldRelay(_, _, _) => HoldGood(c, s, e, h, m);
    case Live(hold, members) => LiveGood(c, s, hold, members, h, m);
    case Adopt(_, _, _) => PlainGood(c, s, e, h, m);
    case Unreadable(_, _) => PlainGood(c, s, e, h, m);
    case SourceOps(hold, name, ops) => FeedOpsGood(c, s, hold, name, ops, h, m);
    case SourceReset(hold, name, v) => FeedResetGood(c, s, hold, name, v, h, m);
    case Want(hold, wanted) => WantGood(c, s, hold, wanted, h, m);
    case AskReset(hold, name) => AskResetGood(c, s, hold, name, h, m);
    case RouteOpened(_) => PlainGood(c, s, e, h, m);
    case FromDown(f) => FromDownGood(c, s, f, h, m);
    case Release(hold) => ReleaseGood(c, s, hold, h, m);
    case LinkClosed => CloseGood(c, s, h, m);
  }

  predicate AdmissibleRun(c: Config, events: seq<Event>, h: nat, m: Member) {
    events == [] ||
    (AdmissibleRun(c, events[..|events| - 1], h, m) &&
     Admissible(c, Run(c, Init, events[..|events| - 1]), events[|events| - 1], h, m))
  }

  lemma {:induction false} RunGood(c: Config, events: seq<Event>, h: nat, m: Member)
    requires AdmissibleRun(c, events, h, m)
    ensures Good(c, Run(c, Init, events), h, m)
  {
    if events != [] {
      var init := events[..|events| - 1];
      RunGood(c, init, h, m);
      StepGood(c, Run(c, Init, init), events[|events| - 1], h, m);
    }
  }

  // --- a lazy slot becomes the current value ---

  /** The feed of (h, m) was told the value its member has now. */
  predicate Current(s: St, h: nat, m: Member) {
    HasFeed(s, h, m) && (h, m) in s.values && s.served[h].feeds[m].seen == s.values[(h, m)]
  }

  predicate SameFeed(s: St, t: St, h: nat, m: Member) {
    && HasFeed(s, h, m) && HasFeed(t, h, m)
    && s.served[h].feeds[m] == t.served[h].feeds[m]
    && s.values == t.values
  }

  lemma {:induction false} AttachAllSameFeed(c: Config, s: St, hold: nat, listed: seq<Member>, h: nat, m: Member)
    requires HasFeed(s, h, m) && (h == hold ==> m !in listed)
    ensures SameFeed(s, AttachAll(c, s, hold, listed).0, h, m)
    decreases |listed|
  {
    if listed != [] {
      var rest := listed[1..];
      AttachAllSameFeed(c, if Attachable(s, hold, listed[0]) then Attach(c, s, hold, listed[0]) else s, hold, rest, h,
          m);
    }
  }

  lemma SendUnitSameFeed(c: Config, s: St, hold: nat, h: nat, m: Member)
    requires HasFeed(s, h, m)
    ensures SameFeed(s, SendUnit(c, s, hold), h, m)
  {
    hide SendUnit;
    SendUnitWaiting(c, s, hold);
    if IsLocal(s, hold) && hold in s.shapes {
      var local := s.served[hold];
      var members := if local.wantsState then s.shapes[hold] else [];
      var u := s.(served := s.served[hold := local.(unitSent := true)]);
      LackingElements(members, local.feeds);
      AttachAllSameFeed(c, u, hold, Lacking(members, local.feeds), h, m);
      SendUnitParts(c, s, hold, h, m);
    } else {
      assert SendUnit(c, s, hold) == s.(waiting := Discard(s.waiting, {UnitKey(hold)})) by { NoUnit(c, s, hold); }
    }
  }

  lemma NoUnit(c: Config, s: St, hold: nat)
    requires !(IsLocal(s, hold) && hold in s.shapes)
    ensures SendUnit(c, s, hold) == s.(waiting := Discard(s.waiting, {UnitKey(hold)}))
  {
  }

  lemma ResendSameFeed(c: Config, s: St, hold: nat, name: Member, h: nat, m: Member)
    requires (h, m) != (hold, name) && HasFeed(s, h, m)
    ensures SameFeed(s, ResendNow(c, s, hold, name), h, m)
  {
    hide Base, Count;
  }

  lemma SendSlotSameFeed(c: Config, s: St, k: Key, slot: Slot, h: nat, m: Member)
    requires (k.UnitKey? <==> slot.UnitSlot?) && k != StateKey(h, m) && HasFeed(s, h, m)
    ensures SameFeed(s, SendSlot(c, s, k, slot), h, m)
  {
    hide SendUnit, ResendNow, Count;
    if slot.UnitSlot? { SendUnitSameFeed(c, s, k.hold, h, m); } else { ResendSameFeed(c, s, k.hold, k.m, h, m); }
  }

  /** While the stream's slot stays where it is, a flush leaves its feed alone; sending it makes the feed current. */
  lemma {:induction false} FlushMakesCurrent(c: Config, s: St, h: nat, m: Member)
    requires HasFeed(s, h, m) && Ordered(s.waiting) && (h, m) in s.values
    requires HasSlot(s, h, m) ==> Lazy(s, h, m) && s.waiting.slots[StateKey(h, m)].overflow.Resend?
    ensures var t := Flush(c, s);
      && HasFeed(t, h, m) && t.values == s.values
      && (HasSlot(t, h, m) ==> HasSlot(s, h, m))
      && (!HasSlot(t, h, m) && (HasSlot(s, h, m) || Current(s, h, m)) ==> Current(t, h, m))
    decreases |s.waiting.order|
  {
    if Flushable(s.waiting) && !Full(c, s) {
      hide SendUnit;
      var k := s.waiting.order[0];
      var t := s.(waiting := Pop(s.waiting));
      PopOrdered(s.waiting);
      SendSlotWaiting(c, t, k, s.waiting.slots[k]);
      DiscardOrdered(t.waiting, {k});
      var u := SendSlot(c, t, k, s.waiting.slots[k]);
      if k != StateKey(h, m) { SendSlotSameFeed(c, t, k, s.waiting.slots[k], h, m); }
      FlushMakesCurrent(c, u, h, m);
    }
  }

  lemma PopOrdered(w: Waiting)
    requires Ordered(w) && w.order != []
    ensures Ordered(Pop(w))
  {
    hide Distinct, Bytes, EmptyIfLazy, Without;
    TailElements(w.order);
    PopBytes(w);
    assert w.order[0] in w.order;
  }

  // --- the theorems ---

  /**
   * Windowed streaming refines direct streaming. In every reachable state, whatever part of the sent frames is still in
   * flight: once it arrived, and then what waits, the stream is where the member's feed is and has the revision the
   * feed was told last. When nothing is in flight and nothing waits, they are equal. (What a consumer holds then,
   * also after an error, is said in `ConsumerRuns`.)
   */
  lemma WindowedAgrees(c: Config, events: seq<Event>, delivered: seq<Frame>, inFlight: seq<Frame>, h: nat, m: Member)
    requires AdmissibleRun(c, events, h, m)
    requires Run(c, Init, events).wire == delivered + inFlight
    requires HasFeed(Run(c, Init, events), h, m)
    ensures var s := Run(c, Init, events);
      var feed := s.served[h].feeds[m];
      var reader := CopyIn(c, delivered, h, m);
      var arrived := ReceiveAll(c.apply, reader, inFlight, h, m);
      && (!Lazy(s, h, m) && HasSlot(s, h, m) ==> WithSlot(c, arrived, s.waiting.slots[StateKey(h, m)]) == Told(feed))
      && (!HasSlot(s, h, m) ==> arrived == Told(feed))
      && (inFlight == [] && !HasSlot(s, h, m) && !feed.errored ==> reader == Copy(feed.seen, feed.session, feed.next))
  {
    RunGood(c, events, h, m);
    ReceiveAllAppend(c.apply, Nothing, delivered, inFlight, h, m);
  }

  /**
   * Where a reset is only promised: the flush that sends it tells a fresh feed the member's current value, and brings
   * the stream there.
   */
  lemma LazyResetIsCurrent(c: Config, events: seq<Event>, h: nat, m: Member)
    requires AdmissibleRun(c, events, h, m)
    requires var s := Run(c, Init, events); HasFeed(s, h, m) && Lazy(s, h, m) && (h, m) in s.values
    ensures var s := Run(c, Init, events); var t := Flush(c, s);
      && HasFeed(t, h, m)
      && (HasSlot(t, h, m) ==> Full(c, t))
      && (!HasSlot(t, h, m) ==>
            t.served[h].feeds[m].seen == s.values[(h, m)] && CopyIn(c, t.wire, h, m) == Told(t.served[h].feeds[m]))
  {
    var s := Run(c, Init, events);
    RunGood(c, events, h, m);
    RunAccounting(c, events);
    FlushAccounted(c, s);
    FlushGood(c, s, h, m);
    FlushMakesCurrent(c, s, h, m);
  }

  /**
   * However often slots are coalesced, capped, dropped or resynced, what reaches the peer has no gap: after the hold's
   * shape it is a concatenation of sessions, each a base and a contiguous prefix of that session's ops.
   */
  lemma GapFree(c: Config, events: seq<Event>, delivered: seq<Frame>, inFlight: seq<Frame>, h: nat, m: Member)
    requires AdmissibleRun(c, events, h, m)
    requires var s := Run(c, Init, events); s.wire == delivered + inFlight && h !in s.cut
    ensures CopyIn(c, delivered, h, m) != Gap
    ensures Sessions.ShapeFirst(delivered, h, m) && Sessions.Contiguous(Sessions.Items(delivered, h, m))
  {
    RunGood(c, events, h, m);
    PrefixGapFree(c.apply, delivered, inFlight, h, m);
    Sessions.GapFreeIsConcatenatedSessions(c.apply, delivered, h, m);
  }

  /** A relay that awaits no reset (see `RelayResets`) passes on exactly what it got: sent and waiting together. */
  lemma RelayAgrees(c: Config, events: seq<Event>, h: nat, m: Member)
    requires AdmissibleRun(c, events, h, m)
    requires var s := Run(c, Init, events); IsRelay(s, h) && h !in s.cut && !Awaits(s, h, m)
    ensures var s := Run(c, Init, events); View(c, s, h, m) == CopyIn(c, s.inbox, h, m)
  {
    RunGood(c, events, h, m);
  }
}

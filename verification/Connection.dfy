/**
 * One end of a link, as the source writes it: fields updated in place. The object remembers the events it handled, and
 * its fields are proved to be the state of that run, so what is proved of runs holds of it at every moment.
 */
module Connections {
  import opened Streams
  import opened Flow
  import opened FlowAccounting
  import opened FlowStreams

  class Connection {
    const c: Config
    // flow control: the window
    var peerAcks: Option<bool>
    var sent: nat
    var acked: nat
    var unacked: seq<nat>
    var unackedBytes: int
    // flow control: what waits, by key and in creation order
    var order: seq<Key>
    var slots: map<Key, Slot>
    var pendingBytes: int
    // what the peer holds here
    var served: map<nat, Served>
    var nextSession: nat
    var closed: bool
    // the served objects
    var shapes: map<nat, seq<Member>>
    var values: map<(nat, Member), Value>
    // what went out, what relays got and what they asked for
    var wire: seq<Frame>
    var inbox: seq<Frame>
    var asked: seq<Ask>
    ghost var used: set<nat>
    ghost var cut: set<nat>
    // every event handled so far
    ghost var history: seq<Event>

    ghost function State(): St
      reads this
    {
      St(Window(peerAcks, sent, acked, unacked, unackedBytes), Waiting(order, slots, pendingBytes), served, nextSession,
         closed, shapes, values, wire, inbox, asked, used, cut)
    }

    /** What the methods need of each other, also between two steps of one event. */
    ghost predicate Accounting()
      reads this
    {
      Accounted(c, State())
    }

    /** The state is that of the run of the events handled: what is proved of runs holds of the object. */
    ghost predicate Valid()
      reads this
    {
      State() == Run(c, Init, history)
    }

    constructor (c: Config)
      ensures this.c == c && State() == Init && Valid() && history == []
    {
      history := [];
      this.c := c;
      peerAcks, sent, acked, unacked, unackedBytes := None, 0, 0, [], 0;
      order, slots, pendingBytes := [], map[], 0;
      served, nextSession, closed, shapes, values := map[], 0, false, map[], map[];
      wire, inbox, asked, used, cut := [], [], [], {}, {};
    }

    predicate Filled()
      reads this
    {
      peerAcks == Some(true) && c.window.Some? && unackedBytes >= c.window.value
    }

    predicate Room(size: nat)
      reads this
    {
      c.cap.Some? ==> pendingBytes + size <= c.cap.value
    }

    method SendFrame(f: Frame)
      modifies this
      ensures State() == Send(c, old(State()), f)
    {
      var size := c.frameSize(f);
      wire := wire + [f];
      if peerAcks == Some(false) { return; }
      sent := sent + 1;
      unacked := unacked + [size];
      unackedBytes := unackedBytes + size;
    }

    /** Removes a slot (and its bytes) from what waits. */
    method Delete(k: Key)
      requires Ordered(State().waiting)
      modifies this`order, this`slots, this`pendingBytes
      ensures State() == old(State()).(waiting := Discard(old(State()).waiting, {k}))
    {
      hide Discard, Bytes, Run, Accounted;
      DiscardOne(State().waiting, k);
      if k in slots {
        if slots[k].StateSlot? { pendingBytes := pendingBytes - slots[k].size; }
        slots := slots - {k};
        order := Without(order, {k});
      }
    }

    /** Adds a slot at the end, or replaces it where it is. */
    method Set(k: Key, slot: Slot)
      modifies this`order, this`slots, this`pendingBytes
      ensures State() == old(State()).(waiting := Put(old(State()).waiting, k, slot))
    {
      if k !in slots {
        order := order + [k];
      } else if slots[k].StateSlot? {
        pendingBytes := pendingBytes - slots[k].size;
      }
      slots := slots[k := slot];
      if slot.StateSlot? { pendingBytes := pendingBytes + slot.size; }
    }

    /** The fields follow `Flow.RelayResync`. */
    method Resync(hold: nat, m: Member)
      modifies this`served, this`asked
      ensures State() == RelayResync(old(State()), hold, m)
    {
      if hold !in served || !served[hold].Relay? { return; }
      var relay := served[hold];
      served := served[hold := relay.(awaiting := relay.awaiting + {m})];
      asked := asked + [Ask(hold, m, relay.routed, inbox)];
    }

    /** The fields follow `Flow.Drop`: the byte counter and the queue stay tidy. */
    method DropSlot(k: Key)
      requires Tidy(c, State().waiting)
      modifies this
      ensures State() == Drop(old(State()), k) && Tidy(c, State().waiting)
    {
      DropTidy(c, State(), k);
      if k !in slots || !slots[k].StateSlot? || !k.StateKey? { return; }
      if slots[k].overflow.Resend? {
        Set(k, LazySlot);
        return;
      }
      Delete(k);
      Resync(k.hold, k.m);
    }

    /** The loop runs over the queue as it was on entry, and does what the recursion `Flow.MakeRoom` does on it. */
    method MakeRoomFor(size: nat, current: Key)
      requires Tidy(c, State().waiting)
      modifies this
      ensures State() == MakeRoom(c, old(State()), old(order), size, current)
    {
      var todo := order;
      ghost var s := State();
      var i := 0;
      assert todo[0..] == todo;
      while i < |todo|
        invariant i <= |todo| && Tidy(c, State().waiting)
        invariant MakeRoom(c, State(), todo[i..], size, current) == MakeRoom(c, s, todo, size, current)
      {
        if Room(size) { return; }
        var k := todo[i];
        assert todo[i..][1..] == todo[i + 1..];
        if k != current && k in slots && slots[k].StateSlot? && slots[k].size > 0 { DropSlot(k); }
        i := i + 1;
      }
      if !Room(size) { DropSlot(current); }
    }

    /** The fields follow `Flow.SendState`, and all accounts stay exact. */
    method SendStateFrame(hold: nat, m: Member, body: Body, overflow: Overflow)
      requires Accounting()
      modifies this
      ensures State() == SendState(c, old(State()), hold, m, body, overflow) && Accounting()
    {
      SendStateAccounted(c, State(), hold, m, body, overflow);
      var k := StateKey(hold, m);
      if k !in slots && !Filled() {
        SendFrame(Streams.State(hold, m, body));
        return;
      }
      if k in slots && slots[k].UnitSlot? { return; }
      if k !in slots {
        CreatedTidy(c, State().waiting, k, overflow);
        Set(k, StateSlot(None, [], 0, false, overflow));
      }
      var slot := slots[k];
      if !body.Ops? {
        Set(k, slot.(base := Some(body), ops := [], size := 0, lazy := false));
        return;
      }
      if slot.lazy { return; }
      AppendOps(k, body.ops);
    }

    method AppendOps(k: Key, ops: seq<WireOp>)
      requires Tidy(c, State().waiting)
      modifies this
      ensures State() == Append(c, old(State()), k, ops)
    {
      var size := c.opsSize(ops);
      if !Room(size) { MakeRoomFor(size, k); }
      if k !in slots || slots[k].UnitSlot? || slots[k].lazy { return; }
      var slot := slots[k];
      Set(k, slot.(ops := slot.ops + ops, size := slot.size + size));
    }

    /** One slot after the other, until exactly the hold's keys are discarded. */
    method DropHoldState(hold: nat)
      requires Ordered(State().waiting)
      modifies this`order, this`slots, this`pendingBytes
      ensures State() == old(State()).(waiting := Discard(old(State()).waiting, HoldKeys(old(State()).waiting, hold)))
    {
      hide Discard, Run, Accounted;
      var keys := order;
      ghost var w := State().waiting;
      ghost var gone: set<Key> := {};
      DiscardNone(w);
      var i := 0;
      while i < |keys|
        invariant i <= |keys|
        invariant forall k | k in gone :: k in keys && k.hold == hold
        invariant forall j | 0 <= j < i && keys[j].hold == hold :: keys[j] in gone
        invariant State() == old(State()).(waiting := Discard(w, gone))
      {
        var k := keys[i];
        if k.hold == hold {
          DeleteMore(w, gone, k);
          gone := gone + {k};
        }
        i := i + 1;
      }
      assert gone == HoldKeys(w, hold);
    }

    method DeleteMore(ghost w: Waiting, ghost gone: set<Key>, k: Key)
      requires Ordered(w) && State().waiting == Discard(w, gone)
      modifies this`order, this`slots, this`pendingBytes
      ensures State() == old(State()).(waiting := Discard(w, gone + {k}))
    {
      DiscardOrdered(w, gone);
      DiscardMore(w, gone, k);
      Delete(k);
    }

    /** The fields follow `Flow.Attach`; `frame` is the base that the new feed starts from, if there is a value. */
    method AttachMember(hold: nat, m: Member, reset: bool) returns (frame: Option<Frame>)
      modifies this`served, this`nextSession
      ensures var s := old(State());
        if Attachable(s, hold, m)
        then State() == Attach(c, s, hold, m)
             && frame == Some(Streams.State(hold, m, Base(c, s.values[(hold, m)], s.nextSession, reset)))
        else State() == s && frame == None
    {
      if hold !in served || !served[hold].Local? || (hold, m) !in values { return None; }
      var v := values[(hold, m)];
      var session := nextSession;
      nextSession := nextSession + 1;
      var feeds := served[hold].feeds[m := Feed(session, 0, v, !c.valid(v))];
      served := served[hold := served[hold].(feeds := feeds)];
      var body := if !c.valid(v) then Error(session) else if reset then Reset(v, session) else Snap(v, session);
      return Some(Streams.State(hold, m, body));
    }

    /** The loop attaches what `Flow.AttachAll` attaches and collects the same snapshots. */
    method AttachMembers(hold: nat, listed: seq<Member>) returns (snaps: seq<Frame>)
      modifies this`served, this`nextSession
      ensures (State(), snaps) == AttachAll(c, old(State()), hold, listed)
    {
      snaps := [];
      ghost var all := AttachAll(c, State(), hold, listed);
      var i := 0;
      assert listed[0..] == listed && [] + all.1 == all.1;
      while i < |listed|
        invariant i <= |listed|
        invariant var rest := AttachAll(c, State(), hold, listed[i..]); rest.0 == all.0 && snaps + rest.1 == all.1
      {
        assert listed[i..][1..] == listed[i + 1..];
        ghost var rest := AttachAll(c, State(), hold, listed[i..]);
        var frame := AttachMember(hold, listed[i], false);
        if frame.Some? {
          ghost var next := AttachAll(c, State(), hold, listed[i + 1..]);
          assert rest.1 == [frame.value] + next.1;
          assert snaps + rest.1 == (snaps + [frame.value]) + next.1;
          snaps := snaps + [frame.value];
        }
        i := i + 1;
      }
      assert snaps + [] == snaps;
    }

    /** The fields follow `Flow.SendUnit`: the queued unit is covered, and the shape precedes the snapshots. */
    method SendUnitOf(hold: nat)
      requires Ordered(State().waiting)
      modifies this
      ensures State() == SendUnit(c, old(State()), hold)
    {
      hide Discard, Count, Lacking, Names, AttachAll, SendAll;
      Delete(UnitKey(hold));
      if hold !in served || !served[hold].Local? || hold !in shapes { return; }
      var local := served[hold];
      served := served[hold := local.(unitSent := true)];
      var members := if local.wantsState then shapes[hold] else [];
      var snaps := AttachMembers(hold, Lacking(members, local.feeds));
      SendFrame(Shape(hold, Names(snaps)));
      SendFrames(snaps);
    }

    method SendFrames(frames: seq<Frame>)
      modifies this
      ensures State() == SendAll(c, old(State()), frames)
    {
      ghost var s := State();
      var i := 0;
      assert frames[0..] == frames;
      while i < |frames|
        invariant i <= |frames|
        invariant SendAll(c, State(), frames[i..]) == SendAll(c, s, frames)
      {
        assert frames[i..][1..] == frames[i + 1..];
        SendFrame(frames[i]);
        i := i + 1;
      }
    }

    /** The fields follow `Flow.ResendNow`: the old feed is replaced by one in a session of its own. */
    method Resend(hold: nat, m: Member)
      modifies this
      ensures State() == ResendNow(c, old(State()), hold, m)
    {
      if hold !in served || !served[hold].Local? || m !in served[hold].feeds { return; }
      served := served[hold := served[hold].(feeds := served[hold].feeds - {m})];
      var frame := AttachMember(hold, m, true);
      if frame.Some? { SendFrame(frame.value); }
    }

    /** Sends the first waiting slot. */
    method FlushFirst()
      requires Accounting() && order != []
      modifies this
      ensures Flushable(old(State()).waiting) && Accounting()
      ensures var w := old(State()).waiting;
        State() == SendSlot(c, old(State()).(waiting := Pop(w)), w.order[0], w.slots[w.order[0]])
      ensures |order| < |old(order)|
    {
      hide Tidy, Bytes, SendUnit, Counted;
      PopTidy(c, State().waiting);
      ghost var popped := State().(waiting := Pop(State().waiting));
      var k := order[0];
      var slot := slots[k];
      order := order[1..];
      slots := slots - {k};
      if slot.StateSlot? { pendingBytes := pendingBytes - slot.size; }
      assert State() == popped;
      SendSlotAccounted(c, popped, k, slot);
      SendSlotWaiting(c, popped, k, slot);
      TidyOrdered(c, popped.waiting);
      SendSlotOf(k, slot);
    }

    /** Each iteration is one unfolding of `Flow.Flush`; afterwards the window is full or the queue is empty. */
    method FlushWaiting()
      requires Accounting()
      modifies this
      ensures State() == Flush(c, old(State())) && Accounting()
      ensures Filled() || order == []
    {
      ghost var s := State();
      FlushAccounted(c, s);
      while order != [] && !Filled()
        invariant Accounting()
        invariant Flush(c, State()) == Flush(c, s)
        decreases |order|
      {
        hide Tidy, SendSlot, Pop, Counted;
        FlushFirst();
      }
    }

    method SendSlotOf(k: Key, slot: Slot)
      requires Ordered(State().waiting) && (k.UnitKey? <==> slot.UnitSlot?)
      modifies this
      ensures State() == SendSlot(c, old(State()), k, slot)
    {
      match slot
      case UnitSlot => SendUnitOf(k.hold);
      case StateSlot(base, ops, _, lazy, overflow) =>
        if lazy {
          if overflow.Resend? { Resend(k.hold, k.m); }
        } else {
          if base.Some? { SendFrame(Streams.State(k.hold, k.m, base.value)); }
          if ops != [] { SendFrame(Streams.State(k.hold, k.m, Ops(ops))); }
        }
    }

    /** An acknowledgement: false (the link closes) if it is out of range or was not announced. */
    method OnAckFrame(n: nat) returns (ok: bool)
      requires Accounting()
      modifies this
      ensures State() == OnAck(c, old(State()), n) && Accounting()
      ensures ok <==> AckInRange(old(State()).window, n)
    {
      if peerAcks != Some(true) || n < acked || n > sent {
        CloseLink();
        return false;
      }
      AcknowledgeTo(n);
      FlushWaiting();
      return true;
    }

    /** Takes the acknowledged frames off the unacknowledged ones. */
    method AcknowledgeTo(n: nat)
      requires Accounting() && AckInRange(State().window, n)
      modifies this`unacked, this`unackedBytes, this`acked
      ensures State() == old(State()).(window := Acknowledge(old(State()).window, n)) && Accounting()
    {
      hide Tidy;
      ghost var w := State().window;
      AcknowledgeCounted(w, n);
      var d := n - acked;
      var i := 0;
      while i < d
        invariant i <= d
        invariant unackedBytes == w.unackedBytes - Sum(w.unacked[..i])
        modifies this`unackedBytes
      {
        SumNext(w.unacked, i);
        unackedBytes := unackedBytes - unacked[i];
        i := i + 1;
      }
      unacked := unacked[d..];
      acked := n;
    }

    method ClearQueue()
      modifies this`order, this`slots, this`pendingBytes
      ensures State() == old(State()).(waiting := Waiting([], map[], 0))
    {
      order, slots, pendingBytes := [], map[], 0;
    }

    method CloseLink()
      modifies this
      ensures State() == Close(old(State()))
      ensures order == [] && pendingBytes == 0 && served == map[]
    {
      closed, served := true, map[];
      ClearQueue();
    }

    method QueueUnitOf(hold: nat)
      requires Accounting()
      modifies this
      ensures State() == QueueUnit(c, old(State()), hold) && Accounting()
    {
      var k := UnitKey(hold);
      PutOrdered(State().waiting, k, UnitSlot);
      if k !in slots { Set(k, UnitSlot); }
      FlushWaiting();
    }

    /** The fields follow `Flow.ResetLater`. */
    method ResetMember(hold: nat, m: Member)
      requires Accounting()
      modifies this
      ensures State() == ResetLater(c, old(State()), hold, m) && Accounting()
    {
      var k := StateKey(hold, m);
      if k in slots && slots[k].UnitSlot? { return; }
      var overflow := if k in slots then slots[k].overflow else Overflow.Resend;
      PutOrdered(State().waiting, k, LazySlot.(overflow := overflow));
      Set(k, LazySlot.(overflow := overflow));
      FlushWaiting();
    }

    /** The fields follow `Flow.RelayState`; `hold` is the id towards the peer. */
    method RelayStateFrame(hold: nat, m: Member, body: Body)
      requires Accounting()
      modifies this
      ensures State() == RelayState(c, old(State()), hold, m, body) && Accounting()
    {
      if hold !in served || !served[hold].Relay? { return; }
      var relay := served[hold];
      inbox := inbox + [Streams.State(hold, m, body)];
      if m in relay.awaiting && body.Ops? { return; }
      served := served[hold := relay.(awaiting := relay.awaiting - {m}, urgent := relay.urgent - {m})];
      if m in relay.urgent {
        CountCounted(State().window, c.frameSize(Streams.State(hold, m, body)));
        SendFrame(Streams.State(hold, m, body));
        return;
      }
      SendStateFrame(hold, m, body, Overflow.Resync);
    }

    /** The fields follow `Flow.FeedOps`: the feed moves on by as many positions as there are ops. */
    method OpsEvent(hold: nat, m: Member, ops: seq<Op>)
      requires Accounting()
      modifies this
      ensures State() == FeedOps(c, old(State()), hold, m, ops) && Accounting()
    {
      if hold !in served || !served[hold].Local? || m !in served[hold].feeds { return; }
      var feed := served[hold].feeds[m];
      var encoded := Encode(feed.session, feed.next, ops);
      var told := feed.(next := feed.next + |ops|, seen := ApplyAll(c.apply, feed.seen, ops));
      served := served[hold := served[hold].(feeds := served[hold].feeds[m := told])];
      SendStateFrame(hold, m, Ops(encoded), Overflow.Resend);
    }

    /** The fields follow `Flow.FeedReset`. */
    method ResetEvent(hold: nat, m: Member, v: Value)
      requires Accounting()
      modifies this
      ensures State() == FeedReset(c, old(State()), hold, m, v) && Accounting()
    {
      hide SendState, Tidy, Counted;
      if hold !in served || !served[hold].Local? || m !in served[hold].feeds { return; }
      var session := nextSession;
      nextSession := nextSession + 1;
      var told := Feed(session, 0, v, !c.valid(v));
      served := served[hold := served[hold].(feeds := served[hold].feeds[m := told])];
      SendStateFrame(hold, m, Base(c, v, session, true), Overflow.Resend);
    }

    /** The fields follow `Flow.OnHello`: a peer without acknowledgements has nothing unacknowledged any more. */
    method HelloFrame(acks: bool)
      modifies this`peerAcks, this`unacked, this`unackedBytes
      ensures State() == OnHello(old(State()), acks)
    {
      if peerAcks != None { return; }
      peerAcks := Some(acks);
      if !acks { unacked, unackedBytes := [], 0; }
    }

    /** The fields follow `Flow.Unit`, which either sends at once or queues; the accounts stay exact in both cases. */
    method UnitOf(hold: nat)
      requires Accounting()
      modifies this
      ensures State() == Unit(c, old(State()), hold) && Accounting()
    {
      hide Discard, SendUnit, Flush, Tidy, Counted;
      UnitAccounted(c, State(), hold);
      if hold !in served || !served[hold].Local? || hold !in shapes { return; }
      var local := served[hold];
      var members := if local.wantsState then Members(shapes[hold]) else {};
      var left := local.feeds.Keys - members;
      AccountedParts();
      DropStates(hold, left);
      served := served[hold := local.(feeds := local.feeds - left)];
      if local.feeds.Keys <= left && !(local.again && !local.unitSent) {
        SendUnitOf(hold);
      } else {
        AccountedWhole();
        QueueUnitOf(hold);
      }
    }

    lemma AccountedParts()
      requires Accounting()
      ensures Tidy(c, State().waiting) && Ordered(State().waiting) && Counted(State().window)
    {
    }

    lemma AccountedWhole()
      requires Tidy(c, State().waiting) && Counted(State().window)
      ensures Accounting()
    {
    }

    /** The set is taken apart in any order: what is discarded in the end does not depend on it. */
    method DropStates(hold: nat, left: set<Member>)
      requires Tidy(c, State().waiting)
      modifies this`order, this`slots, this`pendingBytes
      ensures State() == old(State()).(waiting := Discard(old(State()).waiting, set m | m in left :: StateKey(hold, m)))
      ensures Tidy(c, State().waiting) && Ordered(State().waiting)
    {
      ghost var w := State().waiting;
      ghost var gone: set<Key> := {};
      DiscardNone(w);
      var rest := left;
      while rest != {}
        invariant rest <= left
        invariant gone == set m | m in left && m !in rest :: StateKey(hold, m)
        invariant State() == old(State()).(waiting := Discard(w, gone))
        decreases |rest|
      {
        var m :| m in rest;
        DeleteMore(w, gone, StateKey(hold, m));
        rest := rest - {m};
        gone := gone + {StateKey(hold, m)};
      }
      DiscardTidy(c, w, gone);
      assert gone == set m | m in left :: StateKey(hold, m);
    }

    /** The fields follow `Flow.RelayShape`; only the first shape of a hold changes what the relay remembers. */
    method RelayShapeFrame(hold: nat, listed: seq<Member>)
      modifies this
      ensures State() == RelayShape(c, old(State()), hold, listed)
    {
      if hold !in served || !served[hold].Relay? { return; }
      var relay := served[hold];
      inbox := inbox + [Shape(hold, listed)];
      if !relay.shaped {
        served := served[hold := relay.(shaped := true,
                                        urgent := if relay.again then relay.urgent else Members(listed))];
      }
      SendFrame(Shape(hold, listed));
    }

    /** A served hold ends. */
    method Forget(hold: nat)
      requires Ordered(State().waiting)
      modifies this
      ensures State() == DropServed(old(State()), hold)
    {
      if hold !in served { return; }
      DropHoldState(hold);
      served := served - {hold};
    }

    /** The fields follow `Flow.OnWantState`, for each kind of hold and for none. */
    method WantState(hold: nat, wanted: bool)
      requires Accounting()
      modifies this
      ensures State() == OnWantState(c, old(State()), hold, wanted)
    {
      hide Discard, Unit, Tidy, Counted, RelayWant;
      AccountedParts();
      if hold !in served { return; }
      if served[hold].Relay? {
        RelayWantState(hold, wanted);
        return;
      }
      if served[hold].wantsState == wanted { return; }
      served := served[hold := served[hold].(wantsState := wanted)];
      if wanted {
        AccountedWhole();
        UnitOf(hold);
        return;
      }
      served := served[hold := served[hold].(feeds := map[])];
      DropHoldState(hold);
    }

    /** The fields follow `Flow.RelayWant`. */
    method RelayWantState(hold: nat, wanted: bool)
      requires Ordered(State().waiting)
      modifies this
      ensures State() == RelayWant(old(State()), hold, wanted)
    {
      hide Discard, Unsettled, HoldKeys, Ordered;
      if hold !in served || !served[hold].Relay? || served[hold].wanted == wanted { return; }
      if wanted {
        served := served[hold := served[hold].(wanted := true)];
      } else {
        SwitchOff(hold);
      }
    }

    method SwitchOff(hold: nat)
      requires Ordered(State().waiting) && hold in served && served[hold].Relay? && served[hold].wanted
      modifies this
      ensures State() == RelayWant(old(State()), hold, false)
    {
      hide Discard, Unsettled, HoldKeys, Ordered;
      ghost var s := State();
      DropHoldState(hold);
      served := served[hold := served[hold].(wanted := false, awaiting := {})];
      cut := if Unsettled(s, hold) then cut + {hold} else cut;
    }

    /** The fields follow `Flow.OnResync`, for each kind of hold and for none. */
    method ResyncFrame(hold: nat, m: Member)
      requires Accounting()
      modifies this
      ensures State() == OnResync(c, old(State()), hold, m) && Accounting()
    {
      hide ResetLater, Tidy, Counted;
      if hold !in served { return; }
      if served[hold].Relay? {
        Resync(hold, m);
        return;
      }
      if m !in served[hold].feeds { return; }
      ResetMember(hold, m);
    }

    /** A hold arrives: false (the link closes) if its id is in use. */
    method HoldFrame(hold: nat, entry: Served) returns (ok: bool)
      modifies this
      ensures State() == OnHold(old(State()), hold, entry)
      ensures ok <==> hold !in old(served)
      ensures old(Accounting()) ==> Accounting()
    {
      if hold in served {
        CloseLink();
        return false;
      }
      served := served[hold := entry];
      used := used + {hold};
      return true;
    }

    /** A frame that arrived on the link, or a change of what is served here. */
    method Handle(e: Event)
      requires Valid()
      modifies this
      ensures Valid() && history == old(history) + [e]
      ensures State() == Step(c, old(State()), e)
    {
      hide Run, Accounted;
      RunAccounting(c, history);
      RunPush(c, history, e);
      ghost var before := history;
      if !closed { Dispatch(e); }
      history := before + [e];
    }

    method Dispatch(e: Event)
      requires Accounting() && !closed
      modifies this
      ensures State() == Step(c, old(State()), e)
    {
      hide Accounted, FeedOps, FeedReset, OnWantState, OnResync, OnAck, RelayShape, RelayState, DropServed, OnHold,
          Unit;
      match e
      case SendOther(tag) => SendFrame(Other(tag));
      case Hello(acks) => HelloFrame(acks);
      case Ack(n) => var _ := OnAckFrame(n);
      case SourceOps(h, m, ops) => OpsEvent(h, m, ops);
      case SourceReset(h, m, v) => ResetEvent(h, m, v);
      case Want(h, wanted) => WantState(h, wanted);
      case AskReset(h, m) => ResyncFrame(h, m);
      case FromDown(f) => DownstreamFrame(f);
      case LinkClosed => CloseLink();
      case HoldLocal(_, _, _) => DispatchHold(e);
      case HoldRelay(_, _, _) => DispatchHold(e);
      case Release(_) => DispatchHold(e);
      case _ => DispatchChange(e);
    }

    /** Holds come and go. */
    method DispatchHold(e: Event)
      requires Accounting() && !closed && (e.HoldLocal? || e.HoldRelay? || e.Release?)
      modifies this
      ensures State() == Step(c, old(State()), e)
    {
      hide Accounted, Unit, OnHold, DropServed;
      match e
      case HoldLocal(h, wantsState, again) =>
        var ok := HoldFrame(h, Local(wantsState, again, false, map[]));
        if ok { UnitOf(h); }
      case HoldRelay(h, wantsState, again) =>
        var _ := HoldFrame(h, Relay(again, wantsState, false, false, {}, {}));
      case Release(h) =>
        OrderedWhole();
        Forget(h);
    }

    /** What a hold stands for changes. */
    method DispatchChange(e: Event)
      requires Accounting() && !closed && (e.Live? || e.Adopt? || e.Unreadable? || e.RouteOpened?)
      modifies this
      ensures State() == Step(c, old(State()), e)
    {
      hide Accounted, Unit;
      match e
      case Live(h, members) =>
        shapes := shapes[h := members];
        AccountingKept(State(), old(State()));
        UnitOf(h);
      case Adopt(h, m, v) => values := values[(h, m) := v];
      case Unreadable(h, m) => values := values - {(h, m)};
      case RouteOpened(h) =>
        if h in served && served[h].Relay? { served := served[h := served[h].(routed := true)]; }
    }

    /** A frame a relay got from downstream. */
    method DownstreamFrame(f: Frame)
      requires Accounting() && !closed
      modifies this
      ensures State() == Step(c, old(State()), FromDown(f))
    {
      hide Accounted, RelayShape, RelayState;
      match f
      case Shape(h, listed) => RelayShapeFrame(h, listed);
      case State(h, m, body) => RelayStateFrame(h, m, body);
      case Other(_) =>
    }

    /** The counters of the object are exact, whatever was handled. */
    lemma Counters()
      requires Valid()
      ensures Accounting()
      ensures peerAcks != Some(false) ==> |unacked| == sent - acked
      ensures unackedBytes == Sum(unacked) && pendingBytes == Bytes(order, slots)
      ensures c.cap.Some? ==> pendingBytes <= c.cap.value
    {
      RunAccounting(c, history);
    }

    /** What the object sends has no gap, and once nothing waits or is in flight it is what its feeds were told. */
    lemma Streaming(delivered: seq<Frame>, inFlight: seq<Frame>, h: nat, m: Member)
      requires Valid() && AdmissibleRun(c, history, h, m)
      requires wire == delivered + inFlight && h !in cut
      ensures CopyIn(c, delivered, h, m) != Gap
      ensures HasFeed(State(), h, m) && StateKey(h, m) !in slots && inFlight == [] ==>
        CopyIn(c, delivered, h, m) == Told(served[h].feeds[m])
    {
      GapFree(c, history, delivered, inFlight, h, m);
      if HasFeed(State(), h, m) { WindowedAgrees(c, history, delivered, inFlight, h, m); }
    }

    lemma OrderedWhole()
      requires Accounting()
      ensures Ordered(State().waiting)
    {
    }

    lemma AccountingKept(t: St, s: St)
      requires Accounted(c, s) && t.window == s.window && t.waiting == s.waiting
      ensures Accounted(c, t)
    {
    }
  }

  lemma RunPush(c: Config, events: seq<Event>, e: Event)
    ensures Run(c, Init, events + [e]) == Step(c, Run(c, Init, events), e)
  {
    assert (events + [e])[..|events + [e]| - 1] == events;
  }

  // --- discarding slot by slot ---

  lemma {:induction false} WithoutOne(order: seq<Key>, slots: map<Key, Slot>, k: Key)
    requires Distinct(order)
    ensures k !in order ==> Without(order, {k}) == order
    ensures Bytes(Without(order, {k}), slots) == Bytes(order, slots) - (if k in order then SlotSize(slots, k) else 0)
  {
    if order != [] {
      WithoutOne(order[1..], slots, k);
      assert k in order <==> k == order[0] || k in order[1..];
      if order[0] == k {
        assert k !in order[1..];
        assert Without(order, {k}) == order[1..];
      } else {
        assert Without(order, {k}) == [order[0]] + Without(order[1..], {k});
        assert Without(order, {k})[1..] == Without(order[1..], {k});
      }
    }
  }

  lemma DiscardOne(w: Waiting, k: Key)
    requires Ordered(w)
    ensures Discard(w, {k}) ==
      if k in w.slots then Waiting(Without(w.order, {k}), w.slots - {k}, w.bytes - SlotSize(w.slots, k)) else w
  {
    hide Bytes, Without, Distinct, EmptyIfLazy;
    WithoutOne(w.order, w.slots, k);
    if k !in w.slots { assert w.slots - {k} == w.slots; }
  }

  lemma {:induction false} WithoutTwice(order: seq<Key>, a: set<Key>, b: set<Key>)
    ensures Without(Without(order, a), b) == Without(order, a + b)
  {
    if order != [] {
      WithoutTwice(order[1..], a, b);
      if order[0] !in a {
        assert Without(order, a) == [order[0]] + Without(order[1..], a);
        assert Without(order, a)[1..] == Without(order[1..], a);
      } else {
        assert Without(order, a) == Without(order[1..], a);
      }
    }
  }

  lemma {:induction false} WithoutNone(order: seq<Key>)
    ensures Without(order, {}) == order
  {
    if order != [] { WithoutNone(order[1..]); }
  }

  lemma DiscardNone(w: Waiting)
    ensures Discard(w, {}) == w
  {
    WithoutNone(w.order);
    assert w.slots - {} == w.slots;
  }

  lemma DiscardMore(w: Waiting, gone: set<Key>, k: Key)
    requires Ordered(w)
    ensures Discard(Discard(w, gone), {k}) == Discard(w, gone + {k})
  {
    var t := Discard(w, gone);
    WithoutTwice(w.order, gone, {k});
    assert w.slots - gone - {k} == w.slots - (gone + {k});
    DiscardBytes(w, gone);
    DiscardBytes(t, {k});
    DiscardBytes(w, gone + {k});
  }

  lemma TidyOrdered(c: Config, w: Waiting)
    requires Tidy(c, w)
    ensures Ordered(w)
  {
  }

  lemma SumNext(sizes: seq<nat>, i: nat)
    requires i < |sizes|
    ensures Sum(sizes[..i + 1]) == Sum(sizes[..i]) + sizes[i]
  {
    SumSplit(sizes[..i], [sizes[i]]);
    assert sizes[..i] + [sizes[i]] == sizes[..i + 1];
    assert Sum([sizes[i]]) == sizes[i] + Sum([]);
  }

  lemma CreatedTidy(c: Config, w: Waiting, k: Key, overflow: Overflow)
    requires Tidy(c, w) && k.StateKey? && k !in w.slots
    ensures Tidy(c, Put(w, k, StateSlot(None, [], 0, false, overflow)))
  {
    PutOrdered(w, k, StateSlot(None, [], 0, false, overflow));
  }
}

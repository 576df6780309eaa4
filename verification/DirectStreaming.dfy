/**
 * Windowed and direct streaming compared: two link ends handle the same events, one with a window and a cap, one that
 * never holds anything back. Once both have settled, their peers have the same value.
 */
module DirectStreaming {
  import opened Streams
  import opened Flow
  import opened FlowAccounting
  import opened FlowStreams

  /** What happens to a link end, with each change of a member told to its subscribers as it is adopted. */
  datatype Act =
    | Plain(e: Event)
    | Appear(hold: nat, m: Member, v: Value)
    | Write(hold: nat, m: Member, ops: seq<Op>, v: Value)
    | Replace(hold: nat, m: Member, v: Value)

  function EventsOf(a: Act): seq<Event> {
    match a
    case Plain(e) => [e]
    case Appear(h, m, v) => [Adopt(h, m, v)]
    case Write(h, m, ops, v) => [Adopt(h, m, v), SourceOps(h, m, ops)]
    case Replace(h, m, v) => [Adopt(h, m, v), SourceReset(h, m, v)]
  }

  function Events(acts: seq<Act>): seq<Event> {
    if acts == [] then [] else Events(acts[..|acts| - 1]) + EventsOf(acts[|acts| - 1])
  }

  /** The members' values after `acts`. */
  function Values(acts: seq<Act>): map<(nat, Member), Value> {
    if acts == [] then map[]
    else
      var before := Values(acts[..|acts| - 1]);
      match acts[|acts| - 1]
      case Plain(_) => before
      case Appear(h, m, v) => before[(h, m) := v]
      case Write(h, m, _, v) => before[(h, m) := v]
      case Replace(h, m, v) => before[(h, m) := v]
  }

  /** Ops take the adopted value on; a member has a first value once, and stays readable. */
  predicate Consistent(apply: Apply, acts: seq<Act>) {
    acts == [] ||
    (Consistent(apply, acts[..|acts| - 1]) &&
     var values := Values(acts[..|acts| - 1]);
     match acts[|acts| - 1]
     case Plain(e) => !e.Adopt? && !e.Unreadable? && !e.SourceOps? && !e.SourceReset?
     case Appear(h, m, _) => (h, m) !in values
     case Write(h, m, ops, v) => (h, m) in values && v == ApplyAll(apply, values[(h, m)], ops)
     case Replace(h, m, _) => (h, m) in values)
  }

  /** A feed was told what its member's value is now. */
  predicate UpToDate(s: St, h: nat, m: Member) {
    HasFeed(s, h, m) ==> Current(s, h, m)
  }

  // --- steps that change no value keep feeds up to date ---

  /** Nothing new is told, or a feed is told the current value. */
  predicate Tells(s: St, t: St, h: nat, m: Member) {
    t.values == s.values && (UpToDate(s, h, m) ==> UpToDate(t, h, m))
  }

  lemma {:induction false} AttachAllTells(c: Config, s: St, hold: nat, listed: seq<Member>, h: nat, m: Member)
    ensures Tells(s, AttachAll(c, s, hold, listed).0, h, m)
    decreases |listed|
  {
    if listed != [] {
      var t := if Attachable(s, hold, listed[0]) then Attach(c, s, hold, listed[0]) else s;
      AttachAllTells(c, t, hold, listed[1..], h, m);
    }
  }

  lemma SendUnitTells(c: Config, s: St, hold: nat, h: nat, m: Member)
    ensures Tells(s, SendUnit(c, s, hold), h, m)
  {
    hide SendUnit, AttachAll;
    if IsLocal(s, hold) && hold in s.shapes {
      var local := s.served[hold];
      var members := if local.wantsState then s.shapes[hold] else [];
      var u := s.(served := s.served[hold := local.(unitSent := true)]);
      AttachAllTells(c, u, hold, Lacking(members, local.feeds), h, m);
      SendUnitParts(c, s, hold, h, m);
    } else {
      NoUnit(c, s, hold);
    }
  }

  lemma SendSlotTells(c: Config, s: St, k: Key, slot: Slot, h: nat, m: Member)
    requires k.UnitKey? <==> slot.UnitSlot?
    ensures Tells(s, SendSlot(c, s, k, slot), h, m)
  {
    hide SendUnit;
    if slot.UnitSlot? { SendUnitTells(c, s, k.hold, h, m); }
  }

  lemma {:induction false} FlushTells(c: Config, s: St, h: nat, m: Member)
    ensures Tells(s, Flush(c, s), h, m)
    decreases |s.waiting.order|
  {
    hide SendSlot;
    if Flushable(s.waiting) && !Full(c, s) {
      var k := s.waiting.order[0];
      var t := s.(waiting := Pop(s.waiting));
      SendSlotWaiting(c, t, k, s.waiting.slots[k]);
      SendSlotTells(c, t, k, s.waiting.slots[k], h, m);
      FlushTells(c, SendSlot(c, t, k, s.waiting.slots[k]), h, m);
    }
  }

  lemma UnitTells(c: Config, s: St, hold: nat, h: nat, m: Member)
    ensures Tells(s, Unit(c, s, hold), h, m)
  {
    hide SendUnit, Flush, Bytes, Without;
    if IsLocal(s, hold) && hold in s.shapes {
      var local := s.served[hold];
      var left := local.feeds.Keys - (if local.wantsState then Members(s.shapes[hold]) else {});
      var t := s.(waiting := Discard(s.waiting, set m | m in left :: StateKey(hold, m)),
                  served := s.served[hold := local.(feeds := local.feeds - left)]);
      SendUnitTells(c, t, hold, h, m);
      var k := UnitKey(hold);
      FlushTells(c, if k in t.waiting.slots then t else t.(waiting := Put(t.waiting, k, UnitSlot)), h, m);
    }
  }

  predicate FeedsKept(s: St, t: St, h: nat, m: Member) {
    && t.values == s.values
    && (HasFeed(t, h, m) <==> HasFeed(s, h, m))
    && (HasFeed(s, h, m) ==> t.served[h].feeds[m] == s.served[h].feeds[m])
  }

  lemma DropTells(s: St, k: Key, h: nat, m: Member)
    ensures FeedsKept(s, Drop(s, k), h, m)
  {
    hide Discard, Put;
  }

  lemma {:induction false} MakeRoomTells(c: Config, s: St, todo: seq<Key>, size: nat, current: Key, h: nat, m: Member)
    ensures FeedsKept(s, MakeRoom(c, s, todo, size, current), h, m)
    decreases |todo|
  {
    hide Drop;
    if Fits(c, s.waiting, size) {
    } else if todo == [] {
      DropTells(s, current, h, m);
    } else {
      DropTells(s, todo[0], h, m);
      var t := if todo[0] != current && SlotSize(s.waiting.slots, todo[0]) > 0 then Drop(s, todo[0]) else s;
      MakeRoomTells(c, t, todo[1..], size, current, h, m);
    }
  }

  lemma AppendTells(c: Config, s: St, k: Key, ops: seq<WireOp>, h: nat, m: Member)
    ensures FeedsKept(s, Append(c, s, k, ops), h, m)
  {
    hide MakeRoom, Put;
    MakeRoomTells(c, s, s.waiting.order, c.opsSize(ops), k, h, m);
  }

  /** Sending state changes no feed. */
  lemma SendStateTells(c: Config, s: St, hold: nat, name: Member, body: Body, overflow: Overflow, h: nat, m: Member)
    ensures FeedsKept(s, SendState(c, s, hold, name, body, overflow), h, m)
  {
    hide Append, Count, Put;
    var k := StateKey(hold, name);
    var w := if k in s.waiting.slots then s.waiting else Put(s.waiting, k, StateSlot(None, [], 0, false, overflow));
    if body.Ops? { AppendTells(c, s.(waiting := w), k, body.ops, h, m); }
  }

  lemma ResetLaterTells(c: Config, s: St, hold: nat, name: Member, h: nat, m: Member)
    ensures Tells(s, ResetLater(c, s, hold, name), h, m)
  {
    hide Flush;
    var k := StateKey(hold, name);
    if !(k in s.waiting.slots && s.waiting.slots[k].UnitSlot?) {
      var overflow := if k in s.waiting.slots then s.waiting.slots[k].overflow else Resend;
      FlushTells(c, s.(waiting := Put(s.waiting, k, LazySlot.(overflow := overflow))), h, m);
    }
  }

  lemma PlainTells(c: Config, s: St, e: Event, h: nat, m: Member)
    requires !e.Adopt? && !e.Unreadable? && !e.SourceOps? && !e.SourceReset?
    ensures Tells(s, Step(c, s, e), h, m)
  {
    hide OnHold, Unit, OnWantState, OnAck, OnResync, RelayShape, RelayState, DropServed, UpToDate;
    if s.closed { return; }
    match e
    case Ack(n) => AckTells(c, s, n, h, m);
    case HoldLocal(g, _, _) => HoldTells(c, s, e, h, m);
    case HoldRelay(g, _, _) => HoldTells(c, s, e, h, m);
    case Live(g, members) => LiveTells(c, s, g, members, h, m);
    case Want(g, wanted) => WantTells(c, s, g, wanted, h, m);
    case AskReset(g, name) => AskTells(c, s, g, name, h, m);
    case FromDown(f) => FromDownTells(c, s, f, h, m);
    case _ => QuietTells(c, s, e, h, m);
  }

  lemma QuietTells(c: Config, s: St, e: Event, h: nat, m: Member)
    requires e.SendOther? || e.Hello? || e.RouteOpened? || e.Release? || e.LinkClosed?
    ensures Tells(s, Step(c, s, e), h, m)
  {
    hide Count, Discard, HoldKeys;
  }

  lemma AckTells(c: Config, s: St, n: nat, h: nat, m: Member)
    ensures Tells(s, OnAck(c, s, n), h, m)
  {
    hide Flush, Acknowledge;
    FlushTells(c, if AckInRange(s.window, n) then s.(window := Acknowledge(s.window, n)) else s, h, m);
  }

  lemma HoldTells(c: Config, s: St, e: Event, h: nat, m: Member)
    requires e.HoldLocal? || e.HoldRelay?
    ensures Tells(s, Step(c, s, e), h, m)
  {
    hide Unit;
    if e.HoldLocal? { UnitTells(c, OnHold(s, e.hold, Local(e.wantsState, e.again, false, map[])), e.hold, h, m); }
  }

  lemma LiveTells(c: Config, s: St, hold: nat, members: seq<Member>, h: nat, m: Member)
    ensures Tells(s, Unit(c, s.(shapes := s.shapes[hold := members]), hold), h, m)
  {
    hide Unit;
    UnitTells(c, s.(shapes := s.shapes[hold := members]), hold, h, m);
  }

  lemma WantTells(c: Config, s: St, hold: nat, wanted: bool, h: nat, m: Member)
    ensures Tells(s, OnWantState(c, s, hold, wanted), h, m)
  {
    hide Unit, Discard, HoldKeys, Unsettled;
    if IsLocal(s, hold) {
      UnitTells(c, s.(served := s.served[hold := s.served[hold].(wantsState := wanted)]), hold, h, m);
    }
  }

  lemma AskTells(c: Config, s: St, hold: nat, name: Member, h: nat, m: Member)
    ensures Tells(s, OnResync(c, s, hold, name), h, m)
  {
    hide ResetLater;
    ResetLaterTells(c, s, hold, name, h, m);
  }

  lemma FromDownTells(c: Config, s: St, f: Frame, h: nat, m: Member)
    requires !s.closed
    ensures Tells(s, Step(c, s, FromDown(f)), h, m)
  {
    hide SendState;
    if f.State? && IsRelay(s, f.hold) {
      var r := s.served[f.hold];
      var u := s.(inbox := s.inbox + [f],
                  served := s.served[f.hold := r.(awaiting := r.awaiting - {f.m}, urgent := r.urgent - {f.m})]);
      SendStateTells(c, u, f.hold, f.m, f.body, Resync, h, m);
    }
  }

  // --- a change: adopted, then told ---

  lemma ChangeTells(c: Config, s: St, a: Act, h: nat, m: Member)
    requires !s.closed && UpToDate(s, h, m) && !a.Plain?
    requires a.Appear? ==> !HasFeed(s, a.hold, a.m)
    requires a.Write? ==> (a.hold, a.m) in s.values && a.v == ApplyAll(c.apply, s.values[(a.hold, a.m)], a.ops)
    ensures var t := Step(c, s, Adopt(a.hold, a.m, a.v));
      var u := if a.Appear? then t else Step(c, t, EventsOf(a)[1]);
      UpToDate(u, h, m) && u.values == s.values[(a.hold, a.m) := a.v] && u.closed == s.closed
  {
    hide SendState;
    var t := Step(c, s, Adopt(a.hold, a.m, a.v));
    if a.Write? && HasFeed(t, a.hold, a.m) {
      var feed := t.served[a.hold].feeds[a.m];
      var told := feed.(next := feed.next + |a.ops|, seen := ApplyAll(c.apply, feed.seen, a.ops));
      var body := Ops(Encode(feed.session, feed.next, a.ops));
      SendStateTells(c, Tell(t, a.hold, a.m, told), a.hold, a.m, body, Resend, h, m);
      SendStateOpen(c, Tell(t, a.hold, a.m, told), a.hold, a.m, body, Resend);
    } else if a.Replace? && HasFeed(t, a.hold, a.m) {
      var u := Tell(t, a.hold, a.m, Feed(t.nextSession, 0, a.v, !c.valid(a.v))).(nextSession := t.nextSession + 1);
      SendStateTells(c, u, a.hold, a.m, Base(c, a.v, t.nextSession, true), Resend, h, m);
      SendStateOpen(c, u, a.hold, a.m, Base(c, a.v, t.nextSession, true), Resend);
    }
  }

  lemma SendStateOpen(c: Config, s: St, hold: nat, m: Member, body: Body, overflow: Overflow)
    ensures SendState(c, s, hold, m, body, overflow).closed == s.closed
  {
    hide MakeRoom;
    var k := StateKey(hold, m);
    var w := if k in s.waiting.slots then s.waiting else Put(s.waiting, k, StateSlot(None, [], 0, false, overflow));
    if body.Ops? { MakeRoomSendsNothing(c, s.(waiting := w), w.order, c.opsSize(body.ops), k); }
  }

  lemma RunPush(c: Config, events: seq<Event>, e: Event)
    ensures Run(c, Init, events + [e]) == Step(c, Run(c, Init, events), e)
  {
    assert (events + [e])[..|events + [e]| - 1] == events;
  }

  /** In every run that is not closed, values are those adopted and every feed was told its member's. */
  lemma {:induction false} FeedsUpToDate(c: Config, acts: seq<Act>, h: nat, m: Member)
    requires Consistent(c.apply, acts)
    ensures var s := Run(c, Init, Events(acts));
      s.closed || (s.values == Values(acts) && UpToDate(s, h, m))
  {
    hide Step, Run;
    if acts == [] {
      NoActs(c);
    } else {
      var init, a := acts[..|acts| - 1], acts[|acts| - 1];
      var s := Run(c, Init, Events(init));
      FeedsUpToDate(c, init, h, m);
      var first := EventsOf(a)[0];
      RunPush(c, Events(init), first);
      if |EventsOf(a)| == 1 {
        assert EventsOf(a) == [first];
      } else {
        RunPush(c, Events(init) + [first], EventsOf(a)[1]);
        assert Events(init) + EventsOf(a) == Events(init) + [first] + [EventsOf(a)[1]];
        StaysClosed(c, Step(c, s, first), EventsOf(a)[1]);
      }
      StaysClosed(c, s, first);
      if !s.closed {
        if a.Plain? {
          PlainTells(c, s, a.e, h, m);
        } else {
          FeedsUpToDate(c, init, a.hold, a.m);
          ChangeTells(c, s, a, h, m);
        }
      }
    }
  }

  lemma NoActs(c: Config)
    ensures Run(c, Init, Events([])) == Init
  {
  }

  lemma StaysClosed(c: Config, s: St, e: Event)
    ensures s.closed ==> Step(c, s, e) == s
  {
  }

  // --- direct streaming ---

  /** A link end without a window sends every event at once. */
  lemma StepNeverWaits(c: Config, s: St, e: Event)
    requires c.window.None? && s.waiting.order == [] && Accounted(c, s)
    ensures Step(c, s, e).waiting.order == []
  {
    hide Accounted, Unit, ResetLater, Flush, Count, Acknowledge, HoldKeys, Unsettled;
    StepAccounted(c, s, e);
    NoSlots(c, s);
    if s.closed { return; }
    match e
    case Ack(n) => if AckInRange(s.window, n) { FlushEmpties(c, s.(window := Acknowledge(s.window, n)), s, n); }
    case HoldLocal(h, wantsState, again) =>
      if h !in s.served { UnitNeverWaits(c, s, OnHold(s, h, Local(wantsState, again, false, map[])), h); }
    case Live(h, members) => UnitNeverWaits(c, s, s.(shapes := s.shapes[h := members]), h);
    case Want(h, wanted) =>
      if IsLocal(s, h) { UnitNeverWaits(c, s, s.(served := s.served[h := s.served[h].(wantsState := wanted)]), h); }
    case AskReset(h, m) => if HasFeed(s, h, m) { ResetNeverWaits(c, s, h, m); }
    case _ =>
  }

  lemma NoSlots(c: Config, s: St)
    requires Accounted(c, s) && s.waiting.order == []
    ensures s.waiting.slots == map[] && s.waiting == Waiting([], map[], 0)
  {
  }

  lemma FlushEmpties(c: Config, t: St, s: St, n: nat)
    requires c.window.None? && Accounted(c, s) && AckInRange(s.window, n)
    requires t == s.(window := Acknowledge(s.window, n))
    ensures Flush(c, t).waiting.order == []
  {
    hide Flush;
    AcknowledgeCounted(s.window, n);
    FlushAccounted(c, t);
  }

  lemma UnitNeverWaits(c: Config, s: St, t: St, hold: nat)
    requires c.window.None? && Accounted(c, s) && s.waiting.order == []
    requires t.waiting == s.waiting && t.window == s.window
    ensures Unit(c, t, hold).waiting.order == []
  {
    hide SendUnit, Flush, Counted;
    NoSlots(c, s);
    if IsLocal(t, hold) && hold in t.shapes {
      var local := t.served[hold];
      var left := local.feeds.Keys - (if local.wantsState then Members(t.shapes[hold]) else {});
      var keys := set m | m in left :: StateKey(hold, m);
      assert Discard(t.waiting, keys) == t.waiting;
      var u := t.(waiting := Discard(t.waiting, keys), served := t.served[hold := local.(feeds := local.feeds - left)]);
      SendUnitWaiting(c, u, hold);
      var k := UnitKey(hold);
      PutOrdered(u.waiting, k, UnitSlot);
      FlushAccounted(c, u.(waiting := Put(u.waiting, k, UnitSlot)));
    }
  }

  lemma ResetNeverWaits(c: Config, s: St, hold: nat, m: Member)
    requires c.window.None? && Accounted(c, s) && s.waiting.order == []
    ensures ResetLater(c, s, hold, m).waiting.order == []
  {
    hide Flush, Counted;
    NoSlots(c, s);
    var k := StateKey(hold, m);
    PutOrdered(s.waiting, k, LazySlot.(overflow := Resend));
    FlushAccounted(c, s.(waiting := Put(s.waiting, k, LazySlot.(overflow := Resend))));
  }

  lemma {:induction false} DirectNeverWaits(c: Config, events: seq<Event>)
    requires c.window.None?
    ensures Run(c, Init, events).waiting == Waiting([], map[], 0)
  {
    RunAccounting(c, events);
    if events != [] {
      var init := events[..|events| - 1];
      DirectNeverWaits(c, init);
      RunAccounting(c, init);
      StepNeverWaits(c, Run(c, Init, init), events[|events| - 1]);
    }
    NoSlots(c, Run(c, Init, events));
  }

  // --- the theorem ---

  /** The value a settled end's peer has: all its frames arrived. */
  function PeerValue(c: Config, s: St, h: nat, m: Member): Option<Value> {
    var copy := CopyIn(c, s.wire, h, m);
    if copy.Copy? then Some(copy.value) else None
  }

  lemma SettledValue(c: Config, acts: seq<Act>, h: nat, m: Member)
    requires Consistent(c.apply, acts) && AdmissibleRun(c, Events(acts), h, m)
    requires var s := Run(c, Init, Events(acts));
      !s.closed && HasFeed(s, h, m) && !HasSlot(s, h, m) && !s.served[h].feeds[m].errored
    ensures (h, m) in Values(acts)
    ensures PeerValue(c, Run(c, Init, Events(acts)), h, m) == Some(Values(acts)[(h, m)])
  {
    var s := Run(c, Init, Events(acts));
    FeedsUpToDate(c, acts, h, m);
    assert s.wire + [] == s.wire;
    WindowedAgrees(c, Events(acts), s.wire, [], h, m);
  }

  /**
   * The same changes happen at two link ends, `d` without a window and `c` with any window, cap and sizes (their peers
   * acknowledge, hold and ask as they like). The direct one never keeps anything waiting. Where both stream a member,
   * and nothing of it waits at the windowed end, their peers have the same value: the member's current one.
   */
  lemma WindowedIsDirect(c: Config, acts: seq<Act>, d: Config, direct: seq<Act>, h: nat, m: Member)
    requires d.window.None? && c.apply == d.apply && Values(acts) == Values(direct)
    requires Consistent(c.apply, acts) && AdmissibleRun(c, Events(acts), h, m)
    requires Consistent(c.apply, direct) && AdmissibleRun(d, Events(direct), h, m)
    requires var s := Run(c, Init, Events(acts));
      !s.closed && HasFeed(s, h, m) && !HasSlot(s, h, m) && !s.served[h].feeds[m].errored
    requires var t := Run(d, Init, Events(direct)); !t.closed && HasFeed(t, h, m) && !t.served[h].feeds[m].errored
    ensures Run(d, Init, Events(direct)).waiting == Waiting([], map[], 0)
    ensures (h, m) in Values(acts) && var value := Some(Values(acts)[(h, m)]);
      && PeerValue(c, Run(c, Init, Events(acts)), h, m) == value
      && PeerValue(d, Run(d, Init, Events(direct)), h, m) == value
  {
    DirectNeverWaits(d, Events(direct));
    SettledValue(c, acts, h, m);
    SettledValue(d, direct, h, m);
  }
}

/**
 * The resets relays ask for. In every run a member is awaited exactly while some request for it was not followed by a
 * base of its stream. (That the end which is asked does send one is the matter of `ResetsSent`.)
 */
module RelayResets {
  import opened Streams
  import opened Flow
  import opened FlowAccounting
  import opened FlowStreams
  import opened Consumers
  import opened ConsumerRuns

  // --- what leaves the relays alone ---

  /** Nothing came in, no hold was opened, and the relay under id `h`, if there is one, is as it was. */
  predicate Untouched(s: St, t: St, h: nat) {
    && t.inbox == s.inbox && t.asked == s.asked && t.cut == s.cut && t.used == s.used && t.closed == s.closed
    && (IsRelay(s, h) <==> IsRelay(t, h))
    && (IsRelay(s, h) ==> t.served[h] == s.served[h])
  }

  lemma SendSlotFrame(c: Config, s: St, k: Key, slot: Slot, h: nat)
    requires k.UnitKey? <==> slot.UnitSlot?
    ensures Untouched(s, SendSlot(c, s, k, slot), h)
  {
    hide SendUnit, ResendNow, Count;
    if k.UnitKey? { SendUnitFrame(c, s, k.hold, h); } else { ResendFrame(c, s, k.hold, k.m, h); }
  }

  lemma ResendFrame(c: Config, s: St, hold: nat, m: Member, h: nat)
    ensures Untouched(s, ResendNow(c, s, hold, m), h)
  {
    hide Base, Count;
  }

  lemma {:induction false} FlushFrame(c: Config, s: St, h: nat)
    ensures Untouched(s, Flush(c, s), h)
    decreases |s.waiting.order|
  {
    hide SendSlot;
    if Flushable(s.waiting) && !Full(c, s) {
      var k := s.waiting.order[0];
      var t := s.(waiting := Pop(s.waiting));
      SendSlotWaiting(c, t, k, s.waiting.slots[k]);
      SendSlotFrame(c, t, k, s.waiting.slots[k], h);
      FlushFrame(c, SendSlot(c, t, k, s.waiting.slots[k]), h);
    }
  }

  lemma SendUnitFrame(c: Config, s: St, hold: nat, h: nat)
    ensures Untouched(s, SendUnit(c, s, hold), h)
  {
    hide SendUnit, AttachAll, Lacking;
    if IsLocal(s, hold) && hold in s.shapes {
      var local := s.served[hold];
      var members := if local.wantsState then s.shapes[hold] else [];
      var u := s.(served := s.served[hold := local.(unitSent := true)]);
      AttachAllRelays(c, u, hold, Lacking(members, local.feeds), h);
      SendUnitParts(c, s, hold, hold, "");
    } else {
      NoUnit(c, s, hold);
    }
  }

  lemma {:induction false} AttachAllRelays(c: Config, s: St, hold: nat, listed: seq<Member>, h: nat)
    ensures var t := AttachAll(c, s, hold, listed).0;
      (IsRelay(s, h) <==> IsRelay(t, h)) && (IsRelay(s, h) ==> t.served[h] == s.served[h])
    decreases |listed|
  {
    if listed != [] {
      var t := if Attachable(s, hold, listed[0]) then Attach(c, s, hold, listed[0]) else s;
      AttachAllRelays(c, t, hold, listed[1..], h);
    }
  }

  /** Only `served` (a member may be awaited now) and `asked` may change besides what waits and is sent. */
  lemma SendStateFrame(c: Config, s: St, hold: nat, m: Member, body: Body, overflow: Overflow)
    ensures var t := SendState(c, s, hold, m, body, overflow);
      t.inbox == s.inbox && t.cut == s.cut && t.used == s.used && t.closed == s.closed
  {
    hide MakeRoom, Put, Count;
    var k := StateKey(hold, m);
    var w := if k in s.waiting.slots then s.waiting
             else Put(s.waiting, k, StateSlot(None, [], 0, false, overflow));
    if body.Ops? { MakeRoomSendsNothing(c, s.(waiting := w), w.order, c.opsSize(body.ops), k); }
  }

  lemma QueueUnitFrame(c: Config, s: St, hold: nat, h: nat)
    ensures Untouched(s, QueueUnit(c, s, hold), h)
  {
    hide Flush;
    var k := UnitKey(hold);
    FlushFrame(c, if k in s.waiting.slots then s else s.(waiting := Put(s.waiting, k, UnitSlot)), h);
  }

  lemma UnitFrame(c: Config, s: St, hold: nat, h: nat)
    ensures Untouched(s, Unit(c, s, hold), h)
  {
    hide SendUnit, QueueUnit, Bytes, Without;
    if IsLocal(s, hold) && hold in s.shapes {
      var local := s.served[hold];
      var members := if local.wantsState then Members(s.shapes[hold]) else {};
      var left := local.feeds.Keys - members;
      var t := s.(waiting := Discard(s.waiting, set m | m in left :: StateKey(hold, m)),
                  served := s.served[hold := local.(feeds := local.feeds - left)]);
      SendUnitFrame(c, t, hold, h);
      QueueUnitFrame(c, t, hold, h);
    }
  }

  lemma ResetLaterFrame(c: Config, s: St, hold: nat, m: Member, h: nat)
    ensures Untouched(s, ResetLater(c, s, hold, m), h)
  {
    hide Flush;
    var k := StateKey(hold, m);
    var slots := s.waiting.slots;
    if !(k in slots && slots[k].UnitSlot?) {
      var overflow := if k in slots then slots[k].overflow else Resend;
      FlushFrame(c, s.(waiting := Put(s.waiting, k, LazySlot.(overflow := overflow))), h);
    }
  }

  // --- what an event adds to the inbox ---

  function FromRelay(s: St, e: Event): seq<Frame> {
    if !s.closed && e.FromDown?
       && ((e.frame.State? && IsRelay(s, e.frame.hold)) || (e.frame.Shape? && IsRelay(s, e.frame.id)))
    then [e.frame] else []
  }

  lemma StepFrame(c: Config, s: St, e: Event)
    ensures var t := Step(c, s, e);
      && t.inbox == s.inbox + FromRelay(s, e)
      && s.cut <= t.cut && s.used <= t.used
      && (s.closed ==> t == s)
  {
    hide Unit, Flush, FeedOps, FeedReset, ResetLater, RelayShape, RelayState, OnWantState, Count, Discard;
    if s.closed { return; }
    match e
    case Ack(n) => FlushFrame(c, if AckInRange(s.window, n) then s.(window := Acknowledge(s.window, n)) else s, 0);
    case HoldLocal(h, wantsState, again) => UnitFrame(c, OnHold(s, h, Local(wantsState, again, false, map[])), h, 0);
    case Live(h, members) => UnitFrame(c, s.(shapes := s.shapes[h := members]), h, 0);
    case SourceOps(_, _, _) => FeedFrame(c, s, e);
    case SourceReset(_, _, _) => FeedFrame(c, s, e);
    case Want(h, wanted) => WantFrame(c, s, h, wanted);
    case AskReset(h, m) => ResetLaterFrame(c, s, h, m, 0);
    case FromDown(f) => FromDownFrame(c, s, f);
    case _ =>
  }

  lemma WantFrame(c: Config, s: St, hold: nat, wanted: bool)
    ensures var t := OnWantState(c, s, hold, wanted);
      t.inbox == s.inbox && s.cut <= t.cut && t.used == s.used && t.closed == s.closed
  {
    hide Unit, Discard;
    if IsLocal(s, hold) {
      UnitFrame(c, s.(served := s.served[hold := s.served[hold].(wantsState := wanted)]), hold, 0);
    }
  }

  lemma FeedFrame(c: Config, s: St, e: Event)
    requires !s.closed && (e.SourceOps? || e.SourceReset?)
    ensures var t := Step(c, s, e); t.inbox == s.inbox && t.cut == s.cut && t.used == s.used
  {
    hide SendState;
    if HasFeed(s, e.hold, e.m) {
      if e.SourceOps? {
        var feed := s.served[e.hold].feeds[e.m];
        var told := feed.(next := feed.next + |e.opsOf|, seen := ApplyAll(c.apply, feed.seen, e.opsOf));
        SendStateFrame(c, Tell(s, e.hold, e.m, told), e.hold, e.m, Ops(Encode(feed.session, feed.next, e.opsOf)),
            Resend);
      } else {
        var t := Tell(s, e.hold, e.m, Feed(s.nextSession, 0, e.to, !c.valid(e.to))).(nextSession := s.nextSession + 1);
        SendStateFrame(c, t, e.hold, e.m, Base(c, e.to, s.nextSession, true), Resend);
      }
    }
  }

  lemma FromDownFrame(c: Config, s: St, f: Frame)
    requires !s.closed
    ensures var t := Step(c, s, FromDown(f));
      t.inbox == s.inbox + FromRelay(s, FromDown(f)) && s.cut == t.cut && s.used == t.used
  {
    hide SendState;
    if f.State? && IsRelay(s, f.hold) {
      var r := s.served[f.hold];
      var u := s.(inbox := s.inbox + [f],
                  served := s.served[f.hold := r.(awaiting := r.awaiting - {f.m}, urgent := r.urgent - {f.m})]);
      SendStateFrame(c, u, f.hold, f.m, f.body, Resync);
    }
  }

  // --- a member is awaited exactly while a reset wanted of it is unanswered ---

  predicate About(a: Ask, h: nat, m: Member) { a.hold == h && a.m == m }

  /** How many bases of the stream there are. */
  function Bases(frames: seq<Frame>, h: nat, m: Member): nat { |Starts(frames, h, m)| }

  /** After each request a base of the stream came in. */
  predicate Answered(s: St, h: nat, m: Member) {
    forall a | a in s.asked && About(a, h, m) :: Bases(a.got, h, m) < Bases(s.inbox, h, m)
  }

  /** The invariant. Of a hold that was cut, what was awaited is forgotten. */
  predicate Tracked(s: St, h: nat, m: Member) {
    && (IsRelay(s, h) ==> h in s.used)
    && (forall a | a in s.asked && About(a, h, m) :: h in s.used && Bases(a.got, h, m) <= Bases(s.inbox, h, m))
    && (IsRelay(s, h) && h !in s.cut ==> (Awaits(s, h, m) <==> !Answered(s, h, m)))
  }

  lemma UntouchedTracked(s: St, t: St, h: nat, m: Member)
    requires Tracked(s, h, m) && Untouched(s, t, h)
    ensures Tracked(t, h, m)
  {
    hide Starts;
  }

  lemma ResyncTracked(s: St, hold: nat, name: Member, h: nat, m: Member)
    requires Tracked(s, h, m)
    ensures Tracked(RelayResync(s, hold, name), h, m)
  {
    hide Starts;
    var t := RelayResync(s, hold, name);
    if IsRelay(s, hold) {
      var a := Ask(hold, name, s.served[hold].routed, s.inbox);
      assert a in t.asked && forall b :: b in t.asked <==> b in s.asked || b == a;
    }
  }

  lemma DropTracked(s: St, k: Key, h: nat, m: Member)
    requires Tracked(s, h, m)
    ensures Tracked(Drop(s, k), h, m)
  {
    hide Discard, Put, Starts, Answered, RelayResync;
    if k in s.waiting.slots && s.waiting.slots[k].StateSlot? && k.StateKey? {
      if s.waiting.slots[k].overflow.Resend? {
        UntouchedTracked(s, Drop(s, k), h, m);
      } else {
        var t := s.(waiting := Discard(s.waiting, {k}));
        UntouchedTracked(s, t, h, m);
        ResyncTracked(t, k.hold, k.m, h, m);
      }
    }
  }

  lemma {:induction false} MakeRoomTracked(c: Config, s: St, todo: seq<Key>, size: nat, current: Key, h: nat, m: Member)
    requires Tracked(s, h, m)
    ensures Tracked(MakeRoom(c, s, todo, size, current), h, m)
    decreases |todo|
  {
    hide Drop, Tracked;
    if Fits(c, s.waiting, size) {
    } else if todo == [] {
      DropTracked(s, current, h, m);
    } else {
      DropTracked(s, todo[0], h, m);
      var t := if todo[0] != current && SlotSize(s.waiting.slots, todo[0]) > 0 then Drop(s, todo[0]) else s;
      MakeRoomTracked(c, t, todo[1..], size, current, h, m);
    }
  }

  lemma AppendTracked(c: Config, s: St, k: Key, ops: seq<WireOp>, h: nat, m: Member)
    requires Tracked(s, h, m)
    ensures Tracked(Append(c, s, k, ops), h, m)
  {
    hide MakeRoom, Tracked, Put;
    var size := c.opsSize(ops);
    MakeRoomTracked(c, s, s.waiting.order, size, k, h, m);
    var t := if Fits(c, s.waiting, size) then s else MakeRoom(c, s, s.waiting.order, size, k);
    UntouchedTracked(t, Append(c, s, k, ops), h, m);
  }

  lemma SendStateTracked(c: Config, s: St, hold: nat, name: Member, body: Body, overflow: Overflow, h: nat, m: Member)
    requires Tracked(s, h, m)
    ensures Tracked(SendState(c, s, hold, name, body, overflow), h, m)
  {
    hide Append, Tracked, Put, Count;
    var k := StateKey(hold, name);
    var t := SendState(c, s, hold, name, body, overflow);
    var w := if k in s.waiting.slots then s.waiting else Put(s.waiting, k, StateSlot(None, [], 0, false, overflow));
    var u := s.(waiting := w);
    UntouchedTracked(s, u, h, m);
    if body.Ops? { AppendTracked(c, u, k, body.ops, h, m); }
    if (k !in s.waiting.slots && !Full(c, s)) || !body.Ops? { UntouchedTracked(s, t, h, m); }
  }

  /** A base that comes in answers every request made before it. */
  lemma BaseAnswers(s: St, t: St, f: Frame, h: nat, m: Member)
    requires Tracked(s, h, m) && IsState(f, h, m) && !f.body.Ops?
    requires t.inbox == s.inbox + [f] && t.asked == s.asked && t.used == s.used
    requires IsRelay(s, h) && IsRelay(t, h) && !Awaits(t, h, m)
    ensures Tracked(t, h, m)
  {
    hide Starts;
    StartsPush(s.inbox, f, h, m);
  }

  lemma NothingAnswers(s: St, t: St, f: Frame, h: nat, m: Member)
    requires Tracked(s, h, m) && FrameStarts(f, h, m) == []
    requires t.inbox == s.inbox + [f] && t.asked == s.asked && t.used == s.used && t.cut == s.cut
    requires (IsRelay(t, h) <==> IsRelay(s, h)) && (Awaits(t, h, m) <==> Awaits(s, h, m))
    ensures Tracked(t, h, m)
  {
    hide Starts;
    StartsPush(s.inbox, f, h, m);
    assert Starts(s.inbox, h, m) + [] == Starts(s.inbox, h, m);
  }

  lemma RelayStateTracked(c: Config, s: St, hold: nat, name: Member, body: Body, h: nat, m: Member)
    requires Tracked(s, h, m)
    ensures Tracked(RelayState(c, s, hold, name, body), h, m)
  {
    hide SendState, Tracked, Starts, Count;
    if IsRelay(s, hold) {
      var f := State(hold, name, body);
      var r := s.served[hold];
      var t := s.(inbox := s.inbox + [f]);
      var u := t.(served := t.served[hold := r.(awaiting := r.awaiting - {name}, urgent := r.urgent - {name})]);
      if (h, m) == (hold, name) && !body.Ops? {
        BaseAnswers(s, u, f, h, m);
      } else {
        NothingAnswers(s, t, f, h, m);
        if !(name in r.awaiting && body.Ops?) { NothingAnswers(s, u, f, h, m); }
      }
      if !(name in r.awaiting && body.Ops?) {
        UntouchedTracked(u, Send(c, u, f), h, m);
        SendStateTracked(c, u, hold, name, body, Resync, h, m);
      }
    }
  }

  lemma RelayShapeTracked(c: Config, s: St, hold: nat, listed: seq<Member>, h: nat, m: Member)
    requires Tracked(s, h, m)
    ensures Tracked(RelayShape(c, s, hold, listed), h, m)
  {
    hide Tracked, Starts, Count;
    if IsRelay(s, hold) { NothingAnswers(s, RelayShape(c, s, hold, listed), Shape(hold, listed), h, m); }
  }

  lemma HoldTracked(c: Config, s: St, e: Event, h: nat, m: Member)
    requires Tracked(s, h, m) && Admissible(c, s, e, h, m) && !s.closed && (e.HoldLocal? || e.HoldRelay?)
    ensures Tracked(Step(c, s, e), h, m)
  {
    hide Unit, Starts;
    if e.hold !in s.served && e.HoldLocal? {
      var t := OnHold(s, e.hold, Local(e.wantsState, e.again, false, map[]));
      assert Tracked(t, h, m);
      UnitFrame(c, t, e.hold, h);
      UntouchedTracked(t, Step(c, s, e), h, m);
    }
  }

  lemma WantTracked(c: Config, s: St, hold: nat, wanted: bool, h: nat, m: Member)
    requires Tracked(s, h, m)
    ensures Tracked(OnWantState(c, s, hold, wanted), h, m)
  {
    hide Unit, Starts, Without, Bytes;
    if IsLocal(s, hold) {
      var t := s.(served := s.served[hold := s.served[hold].(wantsState := wanted)]);
      UnitFrame(c, t, hold, h);
      UntouchedTracked(s, OnWantState(c, s, hold, wanted), h, m);
    }
  }

  lemma FeedTracked(c: Config, s: St, e: Event, h: nat, m: Member)
    requires Tracked(s, h, m) && !s.closed && (e.SourceOps? || e.SourceReset?)
    ensures Tracked(Step(c, s, e), h, m)
  {
    hide SendState, Tracked;
    if HasFeed(s, e.hold, e.m) {
      if e.SourceOps? {
        var feed := s.served[e.hold].feeds[e.m];
        var told := feed.(next := feed.next + |e.opsOf|, seen := ApplyAll(c.apply, feed.seen, e.opsOf));
        UntouchedTracked(s, Tell(s, e.hold, e.m, told), h, m);
        SendStateTracked(c, Tell(s, e.hold, e.m, told), e.hold, e.m, Ops(Encode(feed.session, feed.next, e.opsOf)),
            Resend, h, m);
      } else {
        var t := Tell(s, e.hold, e.m, Feed(s.nextSession, 0, e.to, !c.valid(e.to))).(nextSession := s.nextSession + 1);
        UntouchedTracked(s, t, h, m);
        SendStateTracked(c, t, e.hold, e.m, Base(c, e.to, s.nextSession, true), Resend, h, m);
      }
    }
  }

  lemma PlainTracked(c: Config, s: St, e: Event, h: nat, m: Member)
    requires Tracked(s, h, m) && !s.closed
    requires e.SendOther? || e.Hello? || e.Adopt? || e.Unreadable? || e.RouteOpened? || e.Release? || e.LinkClosed?
    ensures Tracked(Step(c, s, e), h, m)
  {
    hide Starts, Without, Bytes, Count;
  }

  lemma StepTracked(c: Config, s: St, e: Event, h: nat, m: Member)
    requires Tracked(s, h, m) && Admissible(c, s, e, h, m)
    ensures Tracked(Step(c, s, e), h, m)
  {
    hide Tracked, Flush, OnHold, Unit, FeedOps, FeedReset, OnWantState, ResetLater, RelayShape, RelayState, DropServed,
        RelayResync;
    if s.closed { return; }
    match e
    case Ack(n) =>
      if AckInRange(s.window, n) { FlushFrame(c, s.(window := Acknowledge(s.window, n)), h); }
      CloseTracked(s, h, m);
      if AckInRange(s.window, n) { UntouchedTracked(s, Step(c, s, e), h, m); }
    case HoldLocal(_, _, _) => HoldTracked(c, s, e, h, m);
    case HoldRelay(_, _, _) => HoldTracked(c, s, e, h, m);
    case Live(hold, members) =>
      UnitFrame(c, s.(shapes := s.shapes[hold := members]), hold, h);
      UntouchedTracked(s, Step(c, s, e), h, m);
    case SourceOps(_, _, _) => FeedTracked(c, s, e, h, m);
    case SourceReset(_, _, _) => FeedTracked(c, s, e, h, m);
    case Want(hold, wanted) => WantTracked(c, s, hold, wanted, h, m);
    case AskReset(hold, name) =>
      ResyncTracked(s, hold, name, h, m);
      ResetLaterFrame(c, s, hold, name, h);
      UntouchedTracked(s, ResetLater(c, s, hold, name), h, m);
    case FromDown(Shape(hold, listed)) => RelayShapeTracked(c, s, hold, listed, h, m);
    case FromDown(State(hold, name, body)) => RelayStateTracked(c, s, hold, name, body, h, m);
    case FromDown(Other(_)) =>
    case _ => PlainTracked(c, s, e, h, m);
  }

  lemma CloseTracked(s: St, h: nat, m: Member)
    requires Tracked(s, h, m)
    ensures Tracked(Close(s), h, m)
  {
    hide Starts, Answered;
  }

  lemma {:induction false} RunTracked(c: Config, events: seq<Event>, h: nat, m: Member)
    requires AdmissibleRun(c, events, h, m)
    ensures Tracked(Run(c, Init, events), h, m)
  {
    if events != [] {
      var init := events[..|events| - 1];
      RunTracked(c, init, h, m);
      StepTracked(c, Run(c, Init, init), events[|events| - 1], h, m);
    }
  }

  /** In every run a relay awaits a reset of a member exactly while some request is not answered by a later base. */
  lemma AwaitedIffUnanswered(c: Config, events: seq<Event>, h: nat, m: Member)
    requires AdmissibleRun(c, events, h, m)
    requires var s := Run(c, Init, events); IsRelay(s, h) && h !in s.cut
    ensures var s := Run(c, Init, events); Awaits(s, h, m) <==> !Answered(s, h, m)
  {
    RunTracked(c, events, h, m);
  }

  /** Once every request was answered, the relay has passed on exactly what it got: sent and waiting together. */
  lemma AnsweredRelayAgrees(c: Config, events: seq<Event>, h: nat, m: Member)
    requires AdmissibleRun(c, events, h, m)
    requires var s := Run(c, Init, events); IsRelay(s, h) && h !in s.cut && Answered(s, h, m)
    ensures var s := Run(c, Init, events); View(c, s, h, m) == CopyIn(c, s.inbox, h, m)
  {
    AwaitedIffUnanswered(c, events, h, m);
    RelayAgrees(c, events, h, m);
  }
}

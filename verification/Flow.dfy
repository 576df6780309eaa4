/**
 * Flow control of one end of a link: the specification of `Connection` as functions on its state.
 *
 * The state also keeps what only the proofs look at: the frames sent so far (`wire`), the frames relays received from
 * downstream (`inbox`, under the origin's hold ids), the resets relays wanted (`asked`), the hold ids used, the
 * relayed holds that were switched off while something of them waited or was awaited (`cut`), and the environment
 * (the shape of each served object and the current value of each of its state members).
 */
module Flow {
  import opened Streams

  datatype Overflow = Resend | Resync

  datatype Key = UnitKey(hold: nat) | StateKey(hold: nat, m: Member)

  datatype Slot =
    | UnitSlot
    | StateSlot(base: Option<Body>, ops: seq<WireOp>, size: nat, lazy: bool, overflow: Overflow)

  /** `session` and `next` are the position of the encoder; `seen` is the revision all it was told amounts to. */
  datatype Feed = Feed(session: nat, next: nat, seen: Value, errored: bool)

  datatype Served =
    | Local(wantsState: bool, again: bool, unitSent: bool, feeds: map<Member, Feed>)
    | Relay(again: bool, wanted: bool, routed: bool, shaped: bool, urgent: set<Member>, awaiting: set<Member>)

  /** `None` limits are infinite. Sizes are what the link and the JSON encoder report. */
  datatype Config = Config(
    window: Option<nat>,
    cap: Option<nat>,
    frameSize: Frame -> nat,
    opsSize: seq<WireOp> -> nat,
    valid: Value -> bool,
    apply: Apply)

  /** The frames sent and not acknowledged yet, once the peer is known to acknowledge (or might). */
  datatype Window = Window(peerAcks: Option<bool>, sent: nat, acked: nat, unacked: seq<nat>, unackedBytes: int)

  /** The slots, in creation order, and the bytes of ops in them. */
  datatype Waiting = Waiting(order: seq<Key>, slots: map<Key, Slot>, bytes: int)

  /** A reset a relay wants of downstream: whether there was a route to send that on, and what had come in by then. */
  datatype Ask = Ask(hold: nat, m: Member, sent: bool, got: seq<Frame>)

  datatype St = St(
    window: Window,
    waiting: Waiting,
    served: map<nat, Served>,
    nextSession: nat,
    closed: bool,
    // the environment
    shapes: map<nat, seq<Member>>,
    values: map<(nat, Member), Value>,
    // history
    wire: seq<Frame>,
    inbox: seq<Frame>,
    asked: seq<Ask>,
    used: set<nat>,
    cut: set<nat>)

  const Init := St(Window(None, 0, 0, [], 0), Waiting([], map[], 0), map[], 0, false, map[], map[], [], [], [], {}, {})

  // --- the window ---

  predicate Full(c: Config, s: St) {
    s.window.peerAcks == Some(true) && c.window.Some? && s.window.unackedBytes >= c.window.value
  }

  function Count(w: Window, size: nat): Window {
    if w.peerAcks == Some(false) then w
    else w.(sent := w.sent + 1, unacked := w.unacked + [size], unackedBytes := w.unackedBytes + size)
  }

  function Send(c: Config, s: St, f: Frame): St {
    s.(wire := s.wire + [f], window := Count(s.window, c.frameSize(f)))
  }

  function SendAll(c: Config, s: St, frames: seq<Frame>): (r: St)
    decreases |frames|
  {
    if frames == [] then s else SendAll(c, Send(c, s, frames[0]), frames[1..])
  }

  function Sum(sizes: seq<nat>): nat {
    if sizes == [] then 0 else sizes[0] + Sum(sizes[1..])
  }

  // --- the queue of slots ---

  function Without(order: seq<Key>, keys: set<Key>): (r: seq<Key>)
    ensures |r| <= |order|
  {
    if order == [] then [] else (if order[0] in keys then [] else [order[0]]) + Without(order[1..], keys)
  }

  function SlotSize(slots: map<Key, Slot>, k: Key): nat {
    if k in slots && slots[k].StateSlot? then slots[k].size else 0
  }

  function Bytes(order: seq<Key>, slots: map<Key, Slot>): nat {
    if order == [] then 0 else SlotSize(slots, order[0]) + Bytes(order[1..], slots)
  }

  /** Forgets the slots of `keys`. */
  function Discard(w: Waiting, keys: set<Key>): (r: Waiting)
    ensures |r.order| <= |w.order|
  {
    var order := Without(w.order, keys);
    Waiting(order, w.slots - keys, w.bytes - (Bytes(w.order, w.slots) - Bytes(order, w.slots)))
  }

  function HoldKeys(w: Waiting, hold: nat): set<Key> {
    set k | k in w.slots && k.hold == hold
  }

  /** Sets the slot of `k`: a new one goes to the end. */
  function Put(w: Waiting, k: Key, slot: Slot): Waiting {
    Waiting(if k in w.slots then w.order else w.order + [k],
            w.slots[k := slot],
            w.bytes - SlotSize(w.slots, k) + (if slot.StateSlot? then slot.size else 0))
  }

  // --- relays asking for a reset ---

  function RelayResync(s: St, hold: nat, m: Member): St {
    if hold in s.served && s.served[hold].Relay? then
      var r := s.served[hold];
      s.(served := s.served[hold := r.(awaiting := r.awaiting + {m})],
         asked := s.asked + [Ask(hold, m, r.routed, s.inbox)])
    else s
  }

  // --- making room ---

  predicate Fits(c: Config, w: Waiting, size: nat) {
    c.cap.Some? ==> w.bytes + size <= c.cap.value
  }

  const LazySlot := StateSlot(None, [], 0, true, Resend)

  function Drop(s: St, k: Key): St {
    if k in s.waiting.slots && s.waiting.slots[k].StateSlot? && k.StateKey? then
      if s.waiting.slots[k].overflow.Resend? then s.(waiting := Put(s.waiting, k, LazySlot))
      else RelayResync(s.(waiting := Discard(s.waiting, {k})), k.hold, k.m)
    else s
  }

  function MakeRoom(c: Config, s: St, todo: seq<Key>, size: nat, current: Key): St
    decreases |todo|
  {
    if Fits(c, s.waiting, size) then s
    else if todo == [] then Drop(s, current)
    else
      var k := todo[0];
      var t := if k != current && SlotSize(s.waiting.slots, k) > 0 then Drop(s, k) else s;
      MakeRoom(c, t, todo[1..], size, current)
  }

  /** Appends ops to the slot of `k`, unless it was dropped to make room. */
  function Append(c: Config, s: St, k: Key, ops: seq<WireOp>): St {
    var size := c.opsSize(ops);
    var t := if Fits(c, s.waiting, size) then s else MakeRoom(c, s, s.waiting.order, size, k);
    if k !in t.waiting.slots || t.waiting.slots[k].UnitSlot? || t.waiting.slots[k].lazy then t
    else
      var slot := t.waiting.slots[k];
      t.(waiting := Put(t.waiting, k, slot.(ops := slot.ops + ops, size := slot.size + size)))
  }

  /** Only a stream without a slot may use an open window: frames of one stream never overtake each other. */
  function SendState(c: Config, s: St, hold: nat, m: Member, body: Body, overflow: Overflow): St {
    var k := StateKey(hold, m);
    if k !in s.waiting.slots && !Full(c, s) then Send(c, s, State(hold, m, body))
    else if k in s.waiting.slots && s.waiting.slots[k].UnitSlot? then s
    else
      var w := if k in s.waiting.slots then s.waiting
               else Put(s.waiting, k, StateSlot(None, [], 0, false, overflow));
      var slot := w.slots[k];
      if !body.Ops? then
        s.(waiting := Put(w, k, slot.(base := Some(body), ops := [], size := 0, lazy := false)))
      else if slot.lazy then s.(waiting := w)
      else Append(c, s.(waiting := w), k, body.ops)
  }

  // --- units and feeds of a served hold ---

  function ApplyAll(apply: Apply, v: Value, ops: seq<Op>): Value {
    if ops == [] then v else apply(ApplyAll(apply, v, ops[..|ops| - 1]), ops[|ops| - 1])
  }

  /** One encoder session's next ops. */
  function Encode(session: nat, next: nat, ops: seq<Op>): (r: seq<WireOp>)
    ensures |r| == |ops|
  {
    if ops == [] then []
    else Encode(session, next, ops[..|ops| - 1]) + [WireOp(session, next + |ops| - 1, ops[|ops| - 1])]
  }

  function Base(c: Config, v: Value, session: nat, reset: bool): (b: Body) {
    if !c.valid(v) then Error(session) else if reset then Reset(v, session) else Snap(v, session)
  }

  predicate Attachable(s: St, hold: nat, m: Member) {
    hold in s.served && s.served[hold].Local? && (hold, m) in s.values
  }

  /** Subscribes member `m`: a fresh feed that was told the current value. */
  function Attach(c: Config, s: St, hold: nat, m: Member): St
    requires Attachable(s, hold, m)
  {
    var v := s.values[(hold, m)];
    var feeds := s.served[hold].feeds[m := Feed(s.nextSession, 0, v, !c.valid(v))];
    s.(served := s.served[hold := s.served[hold].(feeds := feeds)], nextSession := s.nextSession + 1)
  }

  function AttachAll(c: Config, s: St, hold: nat, listed: seq<Member>): (r: (St, seq<Frame>))
    decreases |listed|
  {
    if listed == [] then (s, [])
    else if !Attachable(s, hold, listed[0]) then AttachAll(c, s, hold, listed[1..])
    else
      var m := listed[0];
      var rest := AttachAll(c, Attach(c, s, hold, m), hold, listed[1..]);
      (rest.0, [State(hold, m, Base(c, s.values[(hold, m)], s.nextSession, false))] + rest.1)
  }

  function Names(frames: seq<Frame>): seq<Member> {
    if frames == [] then [] else (if frames[0].State? then [frames[0].m] else []) + Names(frames[1..])
  }

  function Lacking(members: seq<Member>, feeds: map<Member, Feed>): seq<Member> {
    if members == [] then []
    else (if members[0] in feeds then [] else [members[0]]) + Lacking(members[1..], feeds)
  }

  /** One shape, then one base for each listed member that has no feed yet; the queued unit is covered by it. */
  function SendUnit(c: Config, s: St, hold: nat): St {
    var t := s.(waiting := Discard(s.waiting, {UnitKey(hold)}));
    if !(hold in s.served && s.served[hold].Local? && hold in s.shapes) then t
    else
      var local := s.served[hold];
      var members := if local.wantsState then s.shapes[hold] else [];
      var u := t.(served := t.served[hold := local.(unitSent := true)]);
      var (v, snaps) := AttachAll(c, u, hold, Lacking(members, local.feeds));
      SendAll(c, Send(c, v, Shape(hold, Names(snaps))), snaps)
  }

  /** Replaces the member's feed by a fresh one, past the window; without a value the feed is just gone. */
  function ResendNow(c: Config, s: St, hold: nat, m: Member): St {
    if !HasFeed(s, hold, m) then s
    else
      var t := s.(served := s.served[hold := s.served[hold].(feeds := s.served[hold].feeds - {m})]);
      if !Attachable(t, hold, m) then t
      else Send(c, Attach(c, t, hold, m), State(hold, m, Base(c, s.values[(hold, m)], s.nextSession, true)))
  }

  /** The frames a slot stands for. */
  function SendSlot(c: Config, s: St, k: Key, slot: Slot): St
    requires k.UnitKey? <==> slot.UnitSlot?
  {
    match slot
    case UnitSlot => SendUnit(c, s, k.hold)
    case StateSlot(base, ops, _, lazy, overflow) =>
      if lazy then (if overflow.Resend? then ResendNow(c, s, k.hold, k.m) else s)
      else
        var t := if base.Some? then Send(c, s, State(k.hold, k.m, base.value)) else s;
        if ops != [] then Send(c, t, State(k.hold, k.m, Ops(ops))) else t
  }

  /** Without the first slot. */
  function Pop(w: Waiting): Waiting
    requires w.order != []
  {
    Waiting(w.order[1..], w.slots - {w.order[0]}, w.bytes - SlotSize(w.slots, w.order[0]))
  }

  predicate Flushable(w: Waiting) {
    && w.order != []
    && w.order[0] in w.slots
    && (w.order[0].UnitKey? <==> w.slots[w.order[0]].UnitSlot?)
  }

  /** Empties the queue from its front until the window is full. */
  function Flush(c: Config, s: St): St
    decreases |s.waiting.order|
  {
    if !Flushable(s.waiting) || Full(c, s) then s
    else
      var k := s.waiting.order[0];
      var t := s.(waiting := Pop(s.waiting));
      SendSlotWaiting(c, t, k, s.waiting.slots[k]);
      Flush(c, SendSlot(c, t, k, s.waiting.slots[k]))
  }

  lemma {:induction false} AttachAllOrder(c: Config, s: St, hold: nat, listed: seq<Member>)
    ensures var r := AttachAll(c, s, hold, listed).0;
      && r == s.(served := r.served, nextSession := r.nextSession)
    decreases |listed|
  {
    if listed != [] {
      if Attachable(s, hold, listed[0]) {
        AttachAllOrder(c, Attach(c, s, hold, listed[0]), hold, listed[1..]);
      } else {
        AttachAllOrder(c, s, hold, listed[1..]);
      }
    }
  }

  lemma {:induction false} SendAllOrder(c: Config, s: St, frames: seq<Frame>)
    ensures var r := SendAll(c, s, frames);
      && r == s.(wire := s.wire + frames, window := r.window)
    decreases |frames|
  {
    if frames == [] {
      assert s.wire + frames == s.wire;
    } else {
      var t := Send(c, s, frames[0]);
      SendAllOrder(c, t, frames[1..]);
      assert t.wire + frames[1..] == s.wire + frames;
    }
  }

  lemma SendUnitWaiting(c: Config, s: St, hold: nat)
    ensures SendUnit(c, s, hold).waiting == Discard(s.waiting, {UnitKey(hold)})
  {
    if hold in s.served && s.served[hold].Local? && hold in s.shapes {
      var t := s.(waiting := Discard(s.waiting, {UnitKey(hold)}));
      var local := s.served[hold];
      var members := if local.wantsState then s.shapes[hold] else [];
      var u := t.(served := t.served[hold := local.(unitSent := true)]);
      var listed := Lacking(members, local.feeds);
      AttachAllOrder(c, u, hold, listed);
      var (v, snaps) := AttachAll(c, u, hold, listed);
      SendAllOrder(c, Send(c, v, Shape(hold, Names(snaps))), snaps);
    }
  }

  lemma SendSlotWaiting(c: Config, s: St, k: Key, slot: Slot)
    requires k.UnitKey? <==> slot.UnitSlot?
    ensures SendSlot(c, s, k, slot).waiting == if k.UnitKey? then Discard(s.waiting, {k}) else s.waiting
  {
    if k.UnitKey? { SendUnitWaiting(c, s, k.hold); }
  }

  function Members(members: seq<Member>): set<Member> {
    set m | m in members
  }

  function QueueUnit(c: Config, s: St, hold: nat): St {
    var k := UnitKey(hold);
    Flush(c, if k in s.waiting.slots then s else s.(waiting := Put(s.waiting, k, UnitSlot)))
  }

  /** Feeds and slots shrink to the members of the shape; a hold that has no feed left may skip the queue. */
  function Unit(c: Config, s: St, hold: nat): St {
    if !(hold in s.served && s.served[hold].Local? && hold in s.shapes) then s
    else
      var local := s.served[hold];
      var members := if local.wantsState then Members(s.shapes[hold]) else {};
      var left := local.feeds.Keys - members;
      var t := s.(waiting := Discard(s.waiting, set m | m in left :: StateKey(hold, m)),
                  served := s.served[hold := local.(feeds := local.feeds - left)]);
      if local.feeds.Keys <= left && !(local.again && !local.unitSent) then SendUnit(c, t, hold)
      else QueueUnit(c, t, hold)
  }

  predicate HasFeed(s: St, hold: nat, m: Member) {
    hold in s.served && s.served[hold].Local? && m in s.served[hold].feeds
  }

  /** The member's feed is now `feed`. */
  function Tell(s: St, hold: nat, m: Member, feed: Feed): St
    requires HasFeed(s, hold, m)
  {
    s.(served := s.served[hold := s.served[hold].(feeds := s.served[hold].feeds[m := feed])])
  }

  /** The feed moves by exactly the ops it is told, encoded at its position. */
  function FeedOps(c: Config, s: St, hold: nat, m: Member, ops: seq<Op>): St {
    if !HasFeed(s, hold, m) then s
    else
      var feed := s.served[hold].feeds[m];
      var told := feed.(next := feed.next + |ops|, seen := ApplyAll(c.apply, feed.seen, ops));
      SendState(c, Tell(s, hold, m, told), hold, m, Ops(Encode(feed.session, feed.next, ops)), Resend)
  }

  function FeedReset(c: Config, s: St, hold: nat, m: Member, v: Value): St {
    if !HasFeed(s, hold, m) then s
    else
      var t := Tell(s, hold, m, Feed(s.nextSession, 0, v, !c.valid(v))).(nextSession := s.nextSession + 1);
      SendState(c, t, hold, m, Base(c, v, s.nextSession, true), Resend)
  }

  /** The slot keeps its place in the queue and its kind of overflow; what it held is not needed any more. */
  function ResetLater(c: Config, s: St, hold: nat, m: Member): St {
    var k := StateKey(hold, m);
    if k in s.waiting.slots && s.waiting.slots[k].UnitSlot? then s
    else
      var overflow := if k in s.waiting.slots then s.waiting.slots[k].overflow else Resend;
      Flush(c, s.(waiting := Put(s.waiting, k, LazySlot.(overflow := overflow))))
  }

  // --- relays ---

  function RelayShape(c: Config, s: St, hold: nat, listed: seq<Member>): St {
    if !(hold in s.served && s.served[hold].Relay?) then s
    else
      var r := s.served[hold];
      var r' := if r.shaped then r
                else r.(shaped := true, urgent := if r.again then r.urgent else Members(listed));
      Send(c, s.(served := s.served[hold := r'], inbox := s.inbox + [Shape(hold, listed)]), Shape(hold, listed))
  }

  function RelayState(c: Config, s: St, hold: nat, m: Member, body: Body): St {
    if !(hold in s.served && s.served[hold].Relay?) then s
    else
      var r := s.served[hold];
      var t := s.(inbox := s.inbox + [State(hold, m, body)]);
      if m in r.awaiting && body.Ops? then t
      else
        var r' := r.(awaiting := r.awaiting - {m}, urgent := r.urgent - {m});
        var u := t.(served := t.served[hold := r']);
        if m in r.urgent then Send(c, u, State(hold, m, body)) else SendState(c, u, hold, m, body, Resync)
  }

  /** Something of a relayed hold waits for the peer, or was dropped and is awaited anew. */
  predicate Unsettled(s: St, hold: nat) {
    HoldKeys(s.waiting, hold) != {} || (hold in s.served && s.served[hold].Relay? && s.served[hold].awaiting != {})
  }

  /** Switching off empties the hold's part of the queue: the hold is cut if there was anything to lose. */
  function RelayWant(s: St, hold: nat, wanted: bool): St {
    if !(hold in s.served && s.served[hold].Relay?) || s.served[hold].wanted == wanted then s
    else if wanted then s.(served := s.served[hold := s.served[hold].(wanted := true)])
    else
      s.(waiting := Discard(s.waiting, HoldKeys(s.waiting, hold)),
         served := s.served[hold := s.served[hold].(wanted := false, awaiting := {})],
         cut := if Unsettled(s, hold) then s.cut + {hold} else s.cut)
  }

  // --- what the peer asks, and the environment ---

  function OnHello(s: St, acks: bool): St {
    if s.window.peerAcks.Some? then s
    else if acks then s.(window := s.window.(peerAcks := Some(true)))
    else s.(window := s.window.(peerAcks := Some(false), unacked := [], unackedBytes := 0))
  }

  /** The link closed: nothing waits and nothing is served any more. */
  function Close(s: St): St {
    s.(closed := true, waiting := Waiting([], map[], 0), served := map[])
  }

  predicate AckInRange(w: Window, n: nat) {
    w.peerAcks == Some(true) && w.acked <= n <= w.sent
  }

  function Acknowledge(w: Window, n: nat): Window
    requires w.acked <= n
  {
    var d := if n - w.acked <= |w.unacked| then n - w.acked else |w.unacked|;
    w.(unacked := w.unacked[d..], unackedBytes := w.unackedBytes - Sum(w.unacked[..d]), acked := n)
  }

  function OnAck(c: Config, s: St, n: nat): St {
    if !AckInRange(s.window, n) then Close(s) else Flush(c, s.(window := Acknowledge(s.window, n)))
  }

  function OnHold(s: St, hold: nat, served: Served): St {
    if hold in s.served then Close(s)
    else s.(served := s.served[hold := served], used := s.used + {hold})
  }

  function OnWantState(c: Config, s: St, hold: nat, wanted: bool): St {
    if hold !in s.served then s
    else if s.served[hold].Relay? then RelayWant(s, hold, wanted)
    else if s.served[hold].wantsState == wanted then s
    else
      var t := s.(served := s.served[hold := s.served[hold].(wantsState := wanted)]);
      if wanted then Unit(c, t, hold)
      else t.(served := t.served[hold := t.served[hold].(feeds := map[])],
              waiting := Discard(s.waiting, HoldKeys(s.waiting, hold)))
  }

  function OnResync(c: Config, s: St, hold: nat, m: Member): St {
    if hold !in s.served then s
    else if s.served[hold].Relay? then RelayResync(s, hold, m)
    else if m !in s.served[hold].feeds then s
    else ResetLater(c, s, hold, m)
  }

  /** A served hold ends: released by the peer, gone, or its relay closed. */
  function DropServed(s: St, hold: nat): St {
    if hold !in s.served then s
    else s.(waiting := Discard(s.waiting, HoldKeys(s.waiting, hold)), served := s.served - {hold})
  }

  datatype Event =
    | SendOther(tag: nat)
    | Hello(acks: bool)
    | Ack(n: nat)
    | HoldLocal(hold: nat, wantsState: bool, again: bool)
    | HoldRelay(hold: nat, wantsState: bool, again: bool)
    | Live(hold: nat, members: seq<Member>)
    | Adopt(hold: nat, m: Member, value: Value)
    | Unreadable(hold: nat, m: Member)
    | SourceOps(hold: nat, m: Member, opsOf: seq<Op>)
    | SourceReset(hold: nat, m: Member, to: Value)
    | Want(hold: nat, wanted: bool)
    | AskReset(hold: nat, m: Member)
    | RouteOpened(hold: nat)
    | FromDown(frame: Frame)
    | Release(hold: nat)
    | LinkClosed

  function Step(c: Config, s: St, e: Event): St {
    if s.closed then s else
    match e
    case SendOther(tag) => Send(c, s, Other(tag))
    case Hello(acks) => OnHello(s, acks)
    case Ack(n) => OnAck(c, s, n)
    case HoldLocal(h, wantsState, again) =>
      var t := OnHold(s, h, Local(wantsState, again, false, map[]));
      if h in s.served then t else Unit(c, t, h)
    case HoldRelay(h, wantsState, again) => OnHold(s, h, Relay(again, wantsState, false, false, {}, {}))
    case Live(h, members) => Unit(c, s.(shapes := s.shapes[h := members]), h)
    case Adopt(h, m, v) => s.(values := s.values[(h, m) := v])
    case Unreadable(h, m) => s.(values := s.values - {(h, m)})
    case SourceOps(h, m, ops) => FeedOps(c, s, h, m, ops)
    case SourceReset(h, m, v) => FeedReset(c, s, h, m, v)
    case Want(h, wanted) => OnWantState(c, s, h, wanted)
    case AskReset(h, m) => OnResync(c, s, h, m)
    case RouteOpened(h) =>
      if h in s.served && s.served[h].Relay? then s.(served := s.served[h := s.served[h].(routed := true)]) else s
    case FromDown(f) =>
      (match f
       case Shape(h, listed) => RelayShape(c, s, h, listed)
       case State(h, m, body) => RelayState(c, s, h, m, body)
       case Other(_) => s)
    case Release(h) => DropServed(s, h)
    case LinkClosed => Close(s)
  }

  function Run(c: Config, s: St, events: seq<Event>): St {
    if events == [] then s else Step(c, Run(c, s, events[..|events| - 1]), events[|events| - 1])
  }
}

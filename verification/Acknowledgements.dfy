/**
  * Two honest ends of a link acknowledging each other over FIFO channels. An end counts what it sends from
  * the start; acknowledgements are not counted. Its hello need not be the first frame it sends: a
  * connection handles the frames already waiting before it greets. But acknowledgements go out by a timer,
  * so the hello is always before the first of them.
  */
module Acknowledgements {

  import opened Streams
  import Flow
  import FlowAccounting

  datatype Wire = Hello(acks: bool) | Counted | Ack(n: nat)

  /** One end. `inbox` is on its way to it; `timer`: an acknowledgement is scheduled. */
  datatype End = End(
    window: Flow.Window,
    greeted: bool,
    received: nat,
    timer: bool,
    violated: bool,
    inbox: seq<Wire>
  )

  const NEW := End(Flow.Window(None, 0, 0, [], 0), false, 0, false, false, [])

  datatype Pair = Pair(left: End, right: End)

  const INIT := Pair(NEW, NEW)

  datatype Act = Greet(size: nat) | SendFrame(size: nat) | Deliver | AckNow

  datatype Event = Event(atLeft: bool, act: Act)

  predicate Enabled(x: End, act: Act) {
    match act
    case Greet(_) => !x.greeted
    case SendFrame(_) => true
    case Deliver => x.inbox != []
    case AckNow => x.timer && x.greeted
  }

  /** A counted frame arrived: the peer's hello says whether to acknowledge, from then on and for this frame. */
  function Received(x: End, f: Wire): End {
    var window :=
      if f.Hello? && x.window.peerAcks.None?
      then
        if f.acks then x.window.(peerAcks := Some(true))
        else x.window.(peerAcks := Some(false), unacked := [], unackedBytes := 0)
      else x.window;
    x.(window := window, received := x.received + 1, timer := x.timer || window.peerAcks == Some(true))
  }

  function OnDeliver(x: End): End
    requires x.inbox != []
  {
    var rest := x.(inbox := x.inbox[1..]);
    match x.inbox[0]
    case Ack(n) =>
      if Flow.AckInRange(x.window, n) then rest.(window := Flow.Acknowledge(x.window, n)) else rest.(violated := true)
    case f => Received(rest, f)
  }

  /** What the end that acts becomes, and what it puts on the channel to the other. */
  function Acts(x: End, act: Act): (End, seq<Wire>)
    requires Enabled(x, act)
  {
    match act
    case Greet(size) => (x.(greeted := true, window := Flow.Count(x.window, size)), [Hello(true)])
    case SendFrame(size) => (x.(window := Flow.Count(x.window, size)), [Counted])
    case Deliver => (OnDeliver(x), [])
    case AckNow => (x.(timer := false), [Ack(x.received)])
  }

  function Step(p: Pair, e: Event): Pair {
    if e.atLeft then
      if !Enabled(p.left, e.act) then p
      else Pair(Acts(p.left, e.act).0, p.right.(inbox := p.right.inbox + Acts(p.left, e.act).1))
    else
      if !Enabled(p.right, e.act) then p
      else Pair(p.left.(inbox := p.left.inbox + Acts(p.right, e.act).1), Acts(p.right, e.act).0)
  }

  function Run(events: seq<Event>): Pair {
    if events == [] then INIT else Step(Run(events[..|events| - 1]), events[|events| - 1])
  }

  // ---------------------------------------------------------------------------------------------

  /** The counted frames among those on their way. */
  function InTransit(inbox: seq<Wire>): nat {
    if inbox == [] then 0
    else InTransit(inbox[..|inbox| - 1]) + if inbox[|inbox| - 1].Ack? then 0 else 1
  }

  /** The acknowledgements on their way grow from `low` to at most `high`. */
  predicate AcksWithin(inbox: seq<Wire>, low: nat, high: nat) {
    && low <= high
    && (forall i :: 0 <= i < |inbox| && inbox[i].Ack? ==> low <= inbox[i].n <= high)
    && forall i, j :: 0 <= i < j < |inbox| && inbox[i].Ack? && inbox[j].Ack? ==> inbox[i].n <= inbox[j].n
  }

  /** Every acknowledgement on its way is behind a hello on its way. */
  predicate HelloFirst(inbox: seq<Wire>) {
    forall j :: 0 <= j < |inbox| && inbox[j].Ack? ==> exists i :: 0 <= i < j && inbox[i].Hello?
  }

  predicate HasHello(inbox: seq<Wire>) { exists i :: 0 <= i < |inbox| && inbox[i].Hello? }

  /** What `x` sent and the acknowledgements it gets back from `y`. */
  ghost predicate Agree(x: End, y: End) {
    && x.window.sent == y.received + InTransit(y.inbox)
    && FlowAccounting.Counted(x.window)
    && AcksWithin(x.inbox, x.window.acked, y.received)
    && (x.window.peerAcks.Some? ==> x.window.peerAcks.value)
    && (x.window.peerAcks.None? ==> HelloFirst(x.inbox) && (y.greeted ==> HasHello(x.inbox)))
    && (forall i :: 0 <= i < |x.inbox| && x.inbox[i].Hello? ==> x.inbox[i].acks)
    && !x.violated
  }

  ghost predicate Inv(p: Pair) { Agree(p.left, p.right) && Agree(p.right, p.left) }

  lemma TransitAppend(inbox: seq<Wire>, f: Wire)
    ensures InTransit(inbox + [f]) == InTransit(inbox) + if f.Ack? then 0 else 1
  {
    assert (inbox + [f])[..|inbox|] == inbox;
  }

  lemma {:induction false} TransitHead(inbox: seq<Wire>)
    requires inbox != []
    ensures InTransit(inbox) == InTransit(inbox[1..]) + if inbox[0].Ack? then 0 else 1
  {
    if |inbox| == 1 {
      assert inbox[..0] == [] && inbox[1..] == [];
    } else {
      TransitHead(inbox[..|inbox| - 1]);
      assert inbox[1..][..|inbox| - 2] == inbox[..|inbox| - 1][1..];
    }
  }

  /** `y` puts `f` on the channel to `x`. */
  lemma AppendAgrees(x: End, y: End, f: Wire)
    requires Agree(x, y) && (f.Ack? ==> f.n == y.received && y.greeted) && (f.Hello? ==> f.acks)
    ensures var next := x.(inbox := x.inbox + [f]);
      && AcksWithin(next.inbox, x.window.acked, y.received)
      && (x.window.peerAcks.None? ==> HelloFirst(next.inbox) && (y.greeted || f.Hello? ==> HasHello(next.inbox)))
      && (forall i :: 0 <= i < |next.inbox| && next.inbox[i].Hello? ==> next.inbox[i].acks)
  {
    var all := x.inbox + [f];
    assert all[|x.inbox|] == f;
    assert forall i :: 0 <= i < |x.inbox| ==> all[i] == x.inbox[i];
    if x.window.peerAcks.None? {
      if f.Ack? {
        var i :| 0 <= i < |x.inbox| && x.inbox[i].Hello?;
        assert all[i].Hello?;
      }
      forall j | 0 <= j < |all| && all[j].Ack? ensures exists i :: 0 <= i < j && all[i].Hello? {
        if j < |x.inbox| {
          var i :| 0 <= i < j && x.inbox[i].Hello?;
          assert all[i].Hello?;
        }
      }
      if y.greeted {
        var i :| 0 <= i < |x.inbox| && x.inbox[i].Hello?;
        assert all[i].Hello?;
      }
    }
  }

  /** `x` sends: what it counted is what arrived plus what is on its way. */
  lemma SendAgrees(x: End, y: End, act: Act)
    requires Agree(x, y) && Agree(y, x) && Enabled(x, act) && !act.Deliver?
    ensures Agree(Acts(x, act).0, y.(inbox := y.inbox + Acts(x, act).1))
    ensures Agree(y.(inbox := y.inbox + Acts(x, act).1), Acts(x, act).0)
  {
    var (next, frames) := Acts(x, act);
    TransitAppend(y.inbox, frames[0]);
    AppendAgrees(y, x, frames[0]);
    if !act.AckNow? { FlowAccounting.CountCounted(x.window, act.size); }
    hide AcksWithin, HelloFirst, HasHello, FlowAccounting.Counted, InTransit;
  }

  /** An acknowledgement finds an end that knows its peer acknowledges. */
  lemma AckFindsAcking(x: End)
    requires x.inbox != [] && x.inbox[0].Ack? && (x.window.peerAcks.None? ==> HelloFirst(x.inbox))
    ensures x.window.peerAcks.Some?
  {
  }

  lemma AckIsInRange(x: End, y: End)
    requires Agree(x, y) && x.inbox != [] && x.inbox[0].Ack?
    ensures Flow.AckInRange(x.window, x.inbox[0].n)
    ensures AcksWithin(x.inbox[1..], x.inbox[0].n, y.received)
  {
    AckFindsAcking(x);
    assert forall i :: 0 <= i < |x.inbox| - 1 ==> x.inbox[1..][i] == x.inbox[i + 1];
    hide FlowAccounting.Counted, HelloFirst, HasHello;
  }

  lemma AckWindow(w: Flow.Window, n: nat)
    requires FlowAccounting.Counted(w) && Flow.AckInRange(w, n)
    ensures FlowAccounting.Counted(Flow.Acknowledge(w, n))
    ensures Flow.Acknowledge(w, n).sent == w.sent && Flow.Acknowledge(w, n).acked == n
    ensures Flow.Acknowledge(w, n).peerAcks == w.peerAcks
  {
    FlowAccounting.AcknowledgeCounted(w, n);
  }

  lemma AckAgrees(x: End, y: End)
    requires Agree(x, y) && Agree(y, x) && x.inbox != [] && x.inbox[0].Ack?
    ensures Agree(OnDeliver(x), y) && Agree(y, OnDeliver(x))
  {
    hide FlowAccounting.Counted, HelloFirst, HasHello, AcksWithin, InTransit, Flow.Acknowledge, Flow.AckInRange;
    AckIsInRange(x, y);
    AckFindsAcking(x);
    AckWindow(x.window, x.inbox[0].n);
    TransitHead(x.inbox);
    assert forall i :: 0 <= i < |x.inbox| - 1 ==> x.inbox[1..][i] == x.inbox[i + 1];
  }

  lemma FrameAgrees(x: End, y: End)
    requires Agree(x, y) && Agree(y, x) && x.inbox != [] && !x.inbox[0].Ack?
    ensures Agree(OnDeliver(x), y) && Agree(y, OnDeliver(x))
  {
    var next := OnDeliver(x);
    var rest := x.inbox[1..];
    TransitHead(x.inbox);
    assert forall i :: 0 <= i < |rest| ==> rest[i] == x.inbox[i + 1];
    DeliverKeepsHello(x, y);
    assert AcksWithin(rest, x.window.acked, y.received);
    assert AcksWithin(y.inbox, y.window.acked, next.received);
    hide HelloFirst, HasHello, AcksWithin, InTransit;
  }

  lemma DeliverKeepsHello(x: End, y: End)
    requires Agree(x, y) && x.inbox != [] && !x.inbox[0].Ack?
    ensures var next := OnDeliver(x);
      next.window.peerAcks.None? ==> HelloFirst(next.inbox) && (y.greeted ==> HasHello(next.inbox))
  {
    var rest := x.inbox[1..];
    if OnDeliver(x).window.peerAcks.None? {
      forall j | 0 <= j < |rest| && rest[j].Ack? ensures exists i :: 0 <= i < j && rest[i].Hello? {
        assert x.inbox[j + 1].Ack?;
        var i :| 0 <= i < j + 1 && x.inbox[i].Hello?;
        assert rest[i - 1].Hello?;
      }
      if y.greeted {
        var i :| 0 <= i < |x.inbox| && x.inbox[i].Hello?;
        assert rest[i - 1].Hello?;
      }
    }
  }

  lemma ActAgrees(x: End, y: End, act: Act)
    requires Agree(x, y) && Agree(y, x) && Enabled(x, act)
    ensures Agree(Acts(x, act).0, y.(inbox := y.inbox + Acts(x, act).1))
    ensures Agree(y.(inbox := y.inbox + Acts(x, act).1), Acts(x, act).0)
  {
    hide Agree, OnDeliver;
    if act.Deliver? {
      assert y.inbox + [] == y.inbox;
      if x.inbox[0].Ack? { AckAgrees(x, y); } else { FrameAgrees(x, y); }
    } else {
      SendAgrees(x, y, act);
    }
  }

  lemma StepAgrees(p: Pair, e: Event)
    requires Inv(p)
    ensures Inv(Step(p, e))
  {
    hide Agree, Acts, Enabled;
    if e.atLeft {
      if Enabled(p.left, e.act) { ActAgrees(p.left, p.right, e.act); }
    } else {
      if Enabled(p.right, e.act) { ActAgrees(p.right, p.left, e.act); }
    }
  }

  lemma {:induction false} RunAgrees(events: seq<Event>)
    ensures Inv(Run(events))
  {
    if events == [] {
      assert Agree(NEW, NEW);
    } else {
      RunAgrees(events[..|events| - 1]);
      StepAgrees(Run(events[..|events| - 1]), events[|events| - 1]);
    }
  }

  /**
    * Whatever the two ends send and however the channels delay it: no acknowledgement is ever out of range
    * or ahead of the hello, and what an end holds unacknowledged is exactly what is on its way to the other
    * end plus what the other end received and has not acknowledged yet.
    */
  lemma HonestEndsNeverViolate(events: seq<Event>)
    ensures !Run(events).left.violated && !Run(events).right.violated
    ensures var p := Run(events);
      |p.left.window.unacked| == InTransit(p.right.inbox) + (p.right.received - p.left.window.acked)
    ensures var p := Run(events);
      |p.right.window.unacked| == InTransit(p.left.inbox) + (p.left.received - p.right.window.acked)
  {
    RunAgrees(events);
  }
}

/** A run in which an error leads a consumer astray: why `ConsumerRuns.ConsumerAgrees` speaks of valid values. */
module ConsumerErrors {
  import opened Streams
  import opened Flow
  import opened FlowStreams
  import opened Consumers
  import opened ConsumerRuns

  const MEMBER := "m"

  /** A served member takes a value its schema refuses, is asked for again, and then changes by ops. */
  function Erring(v: Value, w: Value, op: Op): seq<Event> {
    [HoldLocal(0, true, false), Adopt(0, MEMBER, v), Live(0, [MEMBER]),
     Adopt(0, MEMBER, w), AskReset(0, MEMBER), SourceOps(0, MEMBER, [op])]
  }

  const SHAPE := Shape(0, [MEMBER])

  function SentErring(v: Value, op: Op): seq<Frame> {
    [SHAPE, State(0, MEMBER, Snap(v, 0)), State(0, MEMBER, Error(1)), State(0, MEMBER, Ops([WireOp(1, 0, op)]))]
  }

  /** One hold is served, nothing waits, and this much was sent. */
  predicate Serving(s: St, feeds: map<Member, Feed>, next: nat, v: Value, wire: seq<Frame>) {
    && s.served == map[0 := Local(true, false, true, feeds)]
    && s.waiting == Waiting([], map[], 0)
    && s.nextSession == next && !s.closed
    && s.values == map[(0, MEMBER) := v]
    && s.wire == wire
  }

  lemma Shown(c: Config, v: Value)
    requires c.window.None? && c.valid(v)
    ensures Serving(Step(c, Step(c, Step(c, Init, HoldLocal(0, true, false)), Adopt(0, MEMBER, v)), Live(0, [MEMBER])),
                    map[MEMBER := Feed(0, 0, v, false)], 1, v, [SHAPE, State(0, MEMBER, Snap(v, 0))])
  {
    hide SendUnit;
    var s := Step(c, Step(c, Init, HoldLocal(0, true, false)), Adopt(0, MEMBER, v));
    var t := s.(shapes := s.shapes[0 := [MEMBER]]);
    assert t.served == map[0 := Local(true, false, false, map[])] && t.waiting == Waiting([], map[], 0);
    assert Step(c, s, Live(0, [MEMBER])) == Unit(c, t, 0);
    FirstUnit(c, t);
    ShownUnit(c, t, v);
  }

  lemma FirstUnit(c: Config, t: St)
    requires t.served == map[0 := Local(true, false, false, map[])] && t.waiting == Waiting([], map[], 0)
    requires t.shapes == map[0 := [MEMBER]]
    ensures Unit(c, t, 0) == SendUnit(c, t, 0)
  {
    hide SendUnit, QueueUnit;
    var feeds: map<Member, Feed> := map[];
    var left := feeds.Keys - Members([MEMBER]);
    var none: set<Key> := set m | m in left :: StateKey(0, m);
    assert left == {} && none == {} && feeds - left == feeds;
    assert Discard(t.waiting, none) == t.waiting;
    assert t.served[0 := t.served[0].(feeds := feeds - left)] == t.served;
  }

  lemma ShownUnit(c: Config, t: St, v: Value)
    requires c.window.None? && c.valid(v)
    requires t.served == map[0 := Local(true, false, false, map[])] && t.waiting == Waiting([], map[], 0)
    requires t.shapes == map[0 := [MEMBER]] && t.values == map[(0, MEMBER) := v] && t.nextSession == 0
    requires !t.closed && t.wire == []
    ensures Serving(SendUnit(c, t, 0), map[MEMBER := Feed(0, 0, v, false)], 1, v, [SHAPE, State(0, MEMBER, Snap(v, 0))])
  {
    var snap := State(0, MEMBER, Snap(v, 0));
    var u := t.(served := t.served[0 := Local(true, false, true, map[])]);
    assert Lacking([MEMBER], map[]) == [MEMBER] by { assert [MEMBER][1..] == []; }
    assert [MEMBER][1..] == [] && Attachable(u, 0, MEMBER);
    var (a, snaps) := AttachAll(c, u, 0, [MEMBER]);
    var b := Attach(c, u, 0, MEMBER);
    assert AttachAll(c, b, 0, []) == (b, []);
    assert (a, snaps) == (b, [snap] + []);
    assert Names([snap]) == [MEMBER] by { assert [snap][1..] == []; }
    SendUnitWire(c, t, 0);
    SendUnitWaiting(c, t, 0);
    assert Discard(t.waiting, {UnitKey(0)}) == t.waiting;
    assert [] + [SHAPE] + [snap] == [SHAPE, snap];
    SendUnitParts(c, t, 0, 0, MEMBER);
  }

  lemma Refused(c: Config, s: St, v: Value, w: Value, wire: seq<Frame>)
    requires c.window.None? && !c.valid(w)
    requires Serving(s, map[MEMBER := Feed(0, 0, v, false)], 1, v, wire)
    ensures Serving(Step(c, Step(c, s, Adopt(0, MEMBER, w)), AskReset(0, MEMBER)),
                    map[MEMBER := Feed(1, 0, w, true)], 2, w, wire + [State(0, MEMBER, Error(1))])
  {
    hide Flush, Base, Put;
    var t := Step(c, s, Adopt(0, MEMBER, w));
    var k := StateKey(0, MEMBER);
    LazyWaits(t);
    assert Step(c, t, AskReset(0, MEMBER)) == Flush(c, t.(waiting := Waiting([k], map[k := LazySlot], 0)));
    LazyGoes(c, t.(waiting := Waiting([k], map[k := LazySlot], 0)), v, w, wire);
  }

  lemma LazyWaits(t: St)
    requires t.waiting == Waiting([], map[], 0)
    ensures var k := StateKey(0, MEMBER);
      Put(t.waiting, k, LazySlot.(overflow := Resend)) == Waiting([k], map[k := LazySlot], 0)
  {
    var k := StateKey(0, MEMBER);
    assert [] + [k] == [k] && map[][k := LazySlot] == map[k := LazySlot];
  }

  lemma LazyGoes(c: Config, s: St, v: Value, w: Value, wire: seq<Frame>)
    requires c.window.None? && !c.valid(w) && !s.closed
    requires var k := StateKey(0, MEMBER); s.waiting == Waiting([k], map[k := LazySlot], 0)
    requires Serving(s.(waiting := Waiting([], map[], 0)), map[MEMBER := Feed(0, 0, v, false)], 1, w, wire)
    ensures Serving(Flush(c, s), map[MEMBER := Feed(1, 0, w, true)], 2, w, wire + [State(0, MEMBER, Error(1))])
  {
    var k := StateKey(0, MEMBER);
    var popped := s.(waiting := Pop(s.waiting));
    assert popped.waiting == Waiting([], map[], 0);
    var sent := SendSlot(c, popped, k, LazySlot);
    assert map[MEMBER := Feed(0, 0, v, false)] - {MEMBER} == map[];
    assert sent.waiting == popped.waiting && Flush(c, sent) == sent;
    assert Flush(c, s) == sent;
  }

  lemma ThenOps(c: Config, s: St, w: Value, op: Op, wire: seq<Frame>)
    requires c.window.None? && Serving(s, map[MEMBER := Feed(1, 0, w, true)], 2, w, wire)
    ensures Step(c, s, SourceOps(0, MEMBER, [op])).wire == wire + [State(0, MEMBER, Ops([WireOp(1, 0, op)]))]
    ensures HasFeed(Step(c, s, SourceOps(0, MEMBER, [op])), 0, MEMBER)
    ensures !HasSlot(Step(c, s, SourceOps(0, MEMBER, [op])), 0, MEMBER)
  {
    assert [op][..0] == [];
    assert Encode(1, 0, [op]) == [WireOp(1, 0, op)];
  }

  lemma RunPush(c: Config, events: seq<Event>, n: nat)
    requires n < |events|
    ensures Run(c, Init, events[..n + 1]) == Step(c, Run(c, Init, events[..n]), events[n])
  {
    assert events[..n + 1][..n] == events[..n];
  }

  lemma ErringRun(c: Config, v: Value, w: Value, op: Op)
    requires c.window.None? && c.valid(v) && !c.valid(w)
    ensures var s := Run(c, Init, Erring(v, w, op));
      s.wire == SentErring(v, op) && HasFeed(s, 0, MEMBER) && !HasSlot(s, 0, MEMBER)
  {
    hide Step;
    var events := Erring(v, w, op);
    assert events[..0] == [] && events[..6] == events;
    RunPush(c, events, 0);
    RunPush(c, events, 1);
    RunPush(c, events, 2);
    Shown(c, v);
    RunPush(c, events, 3);
    RunPush(c, events, 4);
    var shown := [SHAPE, State(0, MEMBER, Snap(v, 0))];
    Refused(c, Run(c, Init, events[..3]), v, w, shown);
    RunPush(c, events, 5);
    ThenOps(c, Run(c, Init, events[..5]), w, op, shown + [State(0, MEMBER, Error(1))]);
    assert shown + [State(0, MEMBER, Error(1))] + [State(0, MEMBER, Ops([WireOp(1, 0, op)]))] == SentErring(v, op);
  }

  lemma {:induction false} ErringAdmissible(c: Config, v: Value, w: Value, op: Op, n: nat)
    requires n <= 6
    ensures AdmissibleRun(c, Erring(v, w, op)[..n], 0, MEMBER)
  {
    hide Run, HonestFrame;
    if n > 0 {
      ErringAdmissible(c, v, w, op, n - 1);
      var events := Erring(v, w, op);
      assert events[..n][..n - 1] == events[..n - 1] && events[..n][n - 1] == events[n - 1];
      if n == 1 {
        assert events[..0] == [] && Run(c, Init, []) == Init by { NoRun(c); }
      }
    }
  }

  lemma NoRun(c: Config)
    ensures Run(c, Init, []) == Init
  {
  }

  /** A hydrated consumer of that run. */
  function Hearing(v: Value, op: Op): seq<Happening> {
    var wire := SentErring(v, op);
    [Arrives(wire[0], true), Arrives(wire[1], true), Arrives(wire[2], true), Arrives(wire[3], true)]
  }

  lemma HearsAll(v: Value, op: Op)
    ensures Arrived(Hearing(v, op)) == SentErring(v, op)
  {
    var (all, wire) := (Hearing(v, op), SentErring(v, op));
    assert all[..3][..2][..1][..0] == [] && all[..3][..2][..1] == all[..1] && all[..3][..2] == all[..2];
    assert Arrived(all[..1]) == wire[..1];
    assert Arrived(all[..2]) == wire[..2];
    assert Arrived(all[..3]) == wire[..3];
  }

  lemma HeldPush(apply: Apply, history: seq<Happening>, e: Happening, h: nat, m: Member)
    ensures Held(apply, history + [e], h, m) == After(apply, Held(apply, history, h, m), e, h, m)
  {
    assert (history + [e])[..|history + [e]| - 1] == history;
  }

  /** What the consumer holds after the error, and after the ops. */
  lemma ReadAstray(c: Config, v: Value, op: Op)
    ensures Held(c.apply, Hearing(v, op)[..3], 0, MEMBER) == Holds(v, 0, 0)
    ensures Held(c.apply, Hearing(v, op), 0, MEMBER) == Astray
    ensures forall next, session :: Read(c.apply, Astray, Reset(next, session), true) == Holds(next, session, 0)
  {
    hide ReadOps;
    var all := Hearing(v, op);
    HeldPush(c.apply, all[..0], all[0], 0, MEMBER);
    HeldPush(c.apply, all[..1], all[1], 0, MEMBER);
    HeldPush(c.apply, all[..2], all[2], 0, MEMBER);
    HeldPush(c.apply, all[..3], all[3], 0, MEMBER);
    assert all[..0] + [all[0]] == all[..1] && all[..1] + [all[1]] == all[..2];
    assert all[..2] + [all[2]] == all[..3] && all[..3] + [all[3]] == all;
    assert Held(c.apply, all[..1], 0, MEMBER) == Absent;
    assert Held(c.apply, all[..2], 0, MEMBER) == Holds(v, 0, 0);
    OpsAfterErrorLeadAstray(c.apply, Holds(v, 0, 0), [WireOp(1, 0, op)]);
  }

  /**
   * It keeps the old value through the error, and then applies ops that were not encoded for it; only the next base
   * brings it back.
   */
  lemma ErrorLeadsAstray(c: Config, v: Value, w: Value, op: Op)
    requires c.window.None? && c.valid(v) && !c.valid(w)
    ensures var s := Run(c, Init, Erring(v, w, op));
      && AdmissibleRun(c, Erring(v, w, op), 0, MEMBER) && s.wire == Arrived(Hearing(v, op))
      && CopyIn(c, s.wire, 0, MEMBER) != Gap && Erred(s.wire, 0, MEMBER)
      && Held(c.apply, Hearing(v, op)[..3], 0, MEMBER) == Holds(v, 0, 0)
      && Held(c.apply, Hearing(v, op), 0, MEMBER) == Astray
      && forall next, session :: Read(c.apply, Astray, Reset(next, session), true) == Holds(next, session, 0)
  {
    hide Run;
    ErringRun(c, v, w, op);
    ErringRead(c, v, op);
    HearsAll(v, op);
    ErringAdmissible(c, v, w, op, 6);
    assert Erring(v, w, op)[..6] == Erring(v, w, op);
    ReadAstray(c, v, op);
  }

  lemma ErringRead(c: Config, v: Value, op: Op)
    ensures CopyIn(c, SentErring(v, op), 0, MEMBER) == Broken(1, 1) && Erred(SentErring(v, op), 0, MEMBER)
  {
    var wire := SentErring(v, op);
    CopyOfPush(c.apply, [], wire[0], 0, MEMBER);
    CopyOfPush(c.apply, wire[..1], wire[1], 0, MEMBER);
    CopyOfPush(c.apply, wire[..2], wire[2], 0, MEMBER);
    CopyOfPush(c.apply, wire[..3], wire[3], 0, MEMBER);
    assert [] + [wire[0]] == wire[..1] && wire[..1] + [wire[1]] == wire[..2];
    assert wire[..2] + [wire[2]] == wire[..3] && wire[..3] + [wire[3]] == wire;
    assert CopyOf(c.apply, wire[..1], 0, MEMBER) == Empty;
    assert CopyOf(c.apply, wire[..2], 0, MEMBER) == Copy(v, 0, 0);
    assert CopyOf(c.apply, wire[..3], 0, MEMBER) == Broken(1, 0);
    var ops := [WireOp(1, 0, op)];
    assert ops[..0] == [] && ReceiveOps(c.apply, Broken(1, 0), ops) == Broken(1, 1);
    ErredIsBroken(c.apply, wire, 0, MEMBER);
  }
}

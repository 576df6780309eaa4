/**
 * A root that calls back, as one run of three hosts: 0 starts it and calls 1, 1 calls 2, and 2 calls back to 1. In the
 * end hosts 1 and 2 wait for each other, and go on until their link closes.
 */
module RootCallback {
  import opened Streams
  import opened RootLeases
  import opened RootNetwork

  const LINE: Topology := map[0 := (0, 1), 1 := (1, 2)]

  const HISTORY: seq<RootNetwork.Event> :=
    [Begin(0), CallOut(0, 0), Arrive(0, 1, true), CallOut(1, 1), Arrive(1, 2, true), CallOut(2, 1), Arrive(1, 1, true),
     Return(1), Return(2), Return(1), Return(0), Arrive(0, 1, true)]

  /** The leases of the three hosts, and what is on its way to host 1 over link 0, and to 2 and 1 over link 1. */
  predicate Looks(n: Net, zero: Lease, one: Lease, two: Lease, toOne: seq<Word>, toTwo: seq<Word>, back: seq<Word>) {
    && n.begun && n.open == Ends(LINE)
    && LeaseAt(n, 0) == zero && LeaseAt(n, 1) == one && LeaseAt(n, 2) == two && n.leases.Keys <= {0, 1, 2}
    && n.channels == map[(0, 0) := [], (0, 1) := toOne, (1, 1) := back, (1, 2) := toTwo]
  }

  lemma LineEnds()
    ensures Ends(LINE) == {(0, 0), (0, 1), (1, 1), (1, 2)} && Proper(LINE)
    ensures IsEnd(LINE, 0, 0) && IsEnd(LINE, 0, 1) && IsEnd(LINE, 1, 1) && IsEnd(LINE, 1, 2)
    ensures Peer(LINE, 0, 0) == 1 && Peer(LINE, 0, 1) == 0 && Peer(LINE, 1, 1) == 2 && Peer(LINE, 1, 2) == 1
  {
    assert LINE.Keys == {0, 1};
  }

  function Own(calls: nat, sent: set<Link>): Lease { Lease(true, calls, {}, {}, sent) }

  function Brought(calls: nat, brought: set<Link>, sent: set<Link>): Lease { Lease(false, calls, brought, {}, sent) }

  lemma Beginning(r: Root)
    ensures var n := Run(LINE, r, []);
      Enabled(LINE, n, Begin(0)) && Looks(Step(LINE, n, r, Begin(0)), Own(1, {}), NO_LEASE, NO_LEASE, [], [], [])
  {
    LineEnds();
    var n := Step(LINE, Fresh(LINE), r, Begin(0));
    assert n.channels == map[(0, 0) := [], (0, 1) := [], (1, 1) := [], (1, 2) := []];
  }

  /** Host `h` calls out over `l`. */
  lemma Calls(n: Net, r: Root, h: Host, l: Link, zero: Lease, one: Lease, two: Lease)
    requires Looks(n, zero, one, two, [], [], [])
    requires (h, l) in {(0, 0), (1, 1), (2, 1)} && LeaseAt(n, h).calls > 0
    ensures Enabled(LINE, n, CallOut(h, l))
    ensures Looks(Step(LINE, n, r, CallOut(h, l)),
                  if h == 0 then zero.(sent := zero.sent + {l}) else zero,
                  if h == 1 then one.(sent := one.sent + {l}) else one,
                  if h == 2 then two.(sent := two.sent + {l}) else two,
                  if h == 0 then [Call] else [], if h == 1 then [Call] else [], if h == 2 then [Call] else [])
  {
    hide SendOver;
    LineEnds();
    CallGoes(n.(leases := n.leases[h := Next(LeaseAt(n, h), Send(r, l))]), h, l);
  }

  lemma CallGoes(n: Net, h: Host, l: Link)
    requires n.open == Ends(LINE) && n.channels == map[(0, 0) := [], (0, 1) := [], (1, 1) := [], (1, 2) := []]
    requires (h, l) in {(0, 0), (1, 1), (2, 1)}
    ensures SendOver(LINE, n, h, {l}, Call) == n.(channels :=
      map[(0, 0) := [], (0, 1) := if h == 0 then [Call] else [],
          (1, 1) := if h == 2 then [Call] else [], (1, 2) := if h == 1 then [Call] else []])
  {
    hide SendOver, Peer, Ends;
    LineEnds();
    assert [] + [Call] == [Call];
    assert Passes(LINE, n, l, h);
    OneGoes(n, h, l, Call);
    if h == 0 {
      assert n.channels[(0, 1) := [Call]] == map[(0, 0) := [], (0, 1) := [Call], (1, 1) := [], (1, 2) := []];
    } else if h == 1 {
      assert n.channels[(1, 2) := [Call]] == map[(0, 0) := [], (0, 1) := [], (1, 1) := [], (1, 2) := [Call]];
    } else {
      assert n.channels[(1, 1) := [Call]] == map[(0, 0) := [], (0, 1) := [], (1, 1) := [Call], (1, 2) := []];
    }
  }

  /** What goes out over one link is appended at its other end. */
  lemma OneGoes(n: Net, h: Host, l: Link, f: Word)
    requires l in LINE && Passes(LINE, n, l, h) && (l, Peer(LINE, l, h)) in n.channels
    ensures var e := (l, Peer(LINE, l, h));
      SendOver(LINE, n, h, {l}, f) == n.(channels := n.channels[e := n.channels[e] + [f]])
  {
    var e := (l, Peer(LINE, l, h));
    assert SendOver(LINE, n, h, {l}, f).channels == n.channels[e := n.channels[e] + [f]];
  }

  /** The call that is on its way to `h` over `l` arrives. */
  lemma Enters(n: Net, r: Root, l: Link, h: Host, zero: Lease, one: Lease, two: Lease, toOne: seq<Word>,
      toTwo: seq<Word>, back: seq<Word>)
    requires Looks(n, zero, one, two, toOne, toTwo, back)
    requires if (l, h) == (0, 1) then (toOne, toTwo, back) == ([Call], [], [])
             else if (l, h) == (1, 2) then (toOne, toTwo, back) == ([], [Call], [])
             else (l, h) == (1, 1) && (toOne, toTwo, back) == ([], [], [Call])
    requires !LeaseAt(n, h).mine
    ensures Enabled(LINE, n, Arrive(l, h, true))
    ensures Looks(Step(LINE, n, r, Arrive(l, h, true)), zero,
                  if h == 1 then one.(calls := one.calls + 1, brought := one.brought + {l}) else one,
                  if h == 2 then two.(calls := two.calls + 1, brought := two.brought + {l}) else two, [], [], [])
  {
    LineEnds();
    var after := Step(LINE, n, r, Arrive(l, h, true));
    assert [Call][1..] == [];
    assert after.channels == map[(0, 0) := [], (0, 1) := [], (1, 1) := [], (1, 2) := []];
  }

  /** A call settles at a host that something else keeps. */
  lemma Returns(n: Net, r: Root, h: Host, zero: Lease, one: Lease, two: Lease)
    requires Looks(n, zero, one, two, [], [], []) && h in {1, 2} && LeaseAt(n, h).calls > 0 &&
      LeaseAt(n, h).brought != {}
    ensures Enabled(LINE, n, Return(h))
    ensures Looks(Step(LINE, n, r, Return(h)), zero,
                  if h == 1 then one.(calls := one.calls - 1) else one,
                  if h == 2 then two.(calls := two.calls - 1) else two, [], [], [])
  {
  }

  /** The origin's only call settles: it ends, and says so over link 0. */
  lemma OriginEnds(n: Net, r: Root, one: Lease, two: Lease)
    requires Looks(n, Own(1, {0}), one, two, [], [], [])
    ensures Enabled(LINE, n, Return(0))
    ensures Looks(Step(LINE, n, r, Return(0)), NO_LEASE, one, two, [End], [], [])
  {
    LineEnds();
    var after := Step(LINE, n, r, Return(0));
    assert [] + [End] == [End];
    assert after.channels == map[(0, 0) := [], (0, 1) := [End], (1, 1) := [], (1, 2) := []];
  }

  /** Host 1 hears of it, and still counts link 1. */
  lemma Hears(n: Net, r: Root, two: Lease)
    requires Looks(n, NO_LEASE, Brought(0, {0, 1}, {1}), two, [End], [], [])
    ensures Enabled(LINE, n, Arrive(0, 1, true))
    ensures Looks(Step(LINE, n, r, Arrive(0, 1, true)), NO_LEASE, Brought(0, {1}, {1}), two, [], [], [])
  {
    LineEnds();
    var after := Step(LINE, n, r, Arrive(0, 1, true));
    assert [End][1..] == [] && {0, 1} - {0} == {1};
    assert after.channels == map[(0, 0) := [], (0, 1) := [], (1, 1) := [], (1, 2) := []];
  }

  lemma Further(r: Root, i: nat)
    requires i < |HISTORY|
    ensures var n := Run(LINE, r, HISTORY[..i]);
      Enabled(LINE, n, HISTORY[i]) ==> Run(LINE, r, HISTORY[..i + 1]) == Step(LINE, n, r, HISTORY[i])
  {
    assert HISTORY[..i + 1][..i] == HISTORY[..i];
  }

  function After(r: Root, i: nat): Net
    requires i <= |HISTORY|
  {
    Run(LINE, r, HISTORY[..i])
  }

  /** The root goes out to host 2. */
  lemma GoingOut(r: Root)
    ensures Looks(After(r, 5), Own(1, {0}), Brought(1, {0}, {1}), Brought(1, {1}, {}), [], [], [])
  {
    hide Looks, Run, Step, Enabled;
    assert HISTORY[..0] == [];
    Beginning(r);
    Further(r, 0);
    Calls(After(r, 1), r, 0, 0, Own(1, {}), NO_LEASE, NO_LEASE) by {
      LooksAt(After(r, 1), Own(1, {}), NO_LEASE, NO_LEASE, [], [], []);
    }
    Further(r, 1);
    assert {} + {0} == {0} && {} + {1} == {1};
    LooksAt(After(r, 2), Own(1, {0}), NO_LEASE, NO_LEASE, [Call], [], []);
    Enters(After(r, 2), r, 0, 1, Own(1, {0}), NO_LEASE, NO_LEASE, [Call], [], []);
    Further(r, 2);
    LooksAt(After(r, 3), Own(1, {0}), Brought(1, {0}, {}), NO_LEASE, [], [], []);
    Calls(After(r, 3), r, 1, 1, Own(1, {0}), Brought(1, {0}, {}), NO_LEASE);
    Further(r, 3);
    LooksAt(After(r, 4), Own(1, {0}), Brought(1, {0}, {1}), NO_LEASE, [], [Call], []);
    Enters(After(r, 4), r, 1, 2, Own(1, {0}), Brought(1, {0}, {1}), NO_LEASE, [], [Call], []);
    Further(r, 4);
  }

  lemma LooksAt(n: Net, zero: Lease, one: Lease, two: Lease, toOne: seq<Word>, toTwo: seq<Word>, back: seq<Word>)
    requires Looks(n, zero, one, two, toOne, toTwo, back)
    ensures LeaseAt(n, 0) == zero && LeaseAt(n, 1) == one && LeaseAt(n, 2) == two
  {
  }

  /** It comes back to host 1, and settles everywhere. */
  lemma ComingBack(r: Root)
    ensures Looks(After(r, 10), Own(1, {0}), Brought(0, {0, 1}, {1}), Brought(0, {1}, {1}), [], [], [])
  {
    GoingOut(r);
    hide Looks, Run, Step, Enabled;
    assert {} + {1} == {1} && {0} + {1} == {0, 1};
    var zero := Own(1, {0});
    LooksAt(After(r, 5), zero, Brought(1, {0}, {1}), Brought(1, {1}, {}), [], [], []);
    Calls(After(r, 5), r, 2, 1, zero, Brought(1, {0}, {1}), Brought(1, {1}, {}));
    Further(r, 5);
    LooksAt(After(r, 6), zero, Brought(1, {0}, {1}), Brought(1, {1}, {1}), [], [], [Call]);
    Enters(After(r, 6), r, 1, 1, zero, Brought(1, {0}, {1}), Brought(1, {1}, {1}), [], [], [Call]);
    Further(r, 6);
    LooksAt(After(r, 7), zero, Brought(2, {0, 1}, {1}), Brought(1, {1}, {1}), [], [], []);
    Returns(After(r, 7), r, 1, zero, Brought(2, {0, 1}, {1}), Brought(1, {1}, {1}));
    Further(r, 7);
    LooksAt(After(r, 8), zero, Brought(1, {0, 1}, {1}), Brought(1, {1}, {1}), [], [], []);
    Returns(After(r, 8), r, 2, zero, Brought(1, {0, 1}, {1}), Brought(1, {1}, {1}));
    Further(r, 8);
    LooksAt(After(r, 9), zero, Brought(1, {0, 1}, {1}), Brought(0, {1}, {1}), [], [], []);
    Returns(After(r, 9), r, 1, zero, Brought(1, {0, 1}, {1}), Brought(0, {1}, {1}));
    Further(r, 9);
  }

  lemma Ending(r: Root)
    ensures Looks(Run(LINE, r, HISTORY), NO_LEASE, Brought(0, {1}, {1}), Brought(0, {1}, {1}), [], [], [])
  {
    ComingBack(r);
    hide Looks, Run, Step, Enabled;
    OriginEnds(After(r, 10), r, Brought(0, {0, 1}, {1}), Brought(0, {1}, {1}));
    Further(r, 10);
    Hears(After(r, 11), r, Brought(0, {1}, {1}));
    Further(r, 11);
    assert HISTORY[..12] == HISTORY;
  }

  /**
   * All calls settled, the origin ended, nothing is on its way, and yet hosts 1 and 2 keep the root's leases, each
   * waiting for the other. Nothing but the loss of a link can happen any more, and that of link 0 changes nothing for
   * them.
   */
  lemma CallbackKeepsLeases(r: Root)
    ensures var n := Run(LINE, r, HISTORY);
      && Quiet(LINE, n) && LeaseAt(n, 0) == NO_LEASE
      && WaitsVia(LINE, n, 1, 2, 1) && WaitsVia(LINE, n, 2, 1, 1)
      && Cycle(LINE, n, [1, 2, 1]) && !Forgotten(n)
      && (forall e | Enabled(LINE, n, e) :: e.Lost?)
      && (forall h | Enabled(LINE, n, Lost(0, h)) :: WaitsVia(LINE, Step(LINE, n, r, Lost(0, h)), 1, 2, 1))
  {
    var n := Run(LINE, r, HISTORY);
    Ending(r);
    LineEnds();
    Still(n);
    RunKeeps(LINE, r, HISTORY);
    assert WaitsVia(LINE, n, 1, 2, 1) && WaitsVia(LINE, n, 2, 1, 1);
    Circle(n);
    hide Run, Step, Quiet, Inv, Enabled;
    LeasesEndUnlessCircular(LINE, r, HISTORY);
    forall e | Enabled(LINE, n, e) ensures e.Lost? { QuietIsFinal(LINE, n, e); }
    forall h | Enabled(LINE, n, Lost(0, h)) ensures WaitsVia(LINE, Step(LINE, n, r, Lost(0, h)), 1, 2, 1) {
      WaitLasts(LINE, n, r, 1, 2, 1, 1, 1, 0, h);
    }
  }

  lemma Still(n: Net)
    requires Looks(n, NO_LEASE, Brought(0, {1}, {1}), Brought(0, {1}, {1}), [], [], [])
    ensures Quiet(LINE, n)
  {
    LineEnds();
    forall h: Host ensures LeaseAt(n, h).calls == 0 {
      if h !in {0, 1, 2} { assert h !in n.leases; }
    }
    forall l: Link, h: Host | IsEnd(LINE, l, h) && (l, h) in n.open ensures (l, Peer(LINE, l, h)) in n.open {
      assert l in {0, 1};
    }
  }

  lemma Circle(n: Net)
    requires WaitsVia(LINE, n, 1, 2, 1) && WaitsVia(LINE, n, 2, 1, 1)
    ensures Cycle(LINE, n, [1, 2, 1])
  {
    var p: seq<Host> := [1, 2, 1];
    assert WaitsFor(LINE, n, 1, 2) && WaitsFor(LINE, n, 2, 1);
    forall i | 0 < i < |p| ensures WaitsFor(LINE, n, p[i - 1], p[i]) {}
  }
}

/**
 * One root across hosts: each host with its own lease of the root, joined by FIFO links that carry its calls and
 * `root_end` frames and may close. When do all leases end?
 */
module RootNetwork {
  import opened Streams
  import opened Sets
  import opened RootLeases

  type Host = nat

  datatype Word = Call | End

  /** The two hosts at the ends of each link. */
  type Topology = map<Link, (Host, Host)>

  predicate Proper(t: Topology) { forall l | l in t :: t[l].0 != t[l].1 }

  /** Host `h` is at one end of `l`. */
  predicate IsEnd(t: Topology, l: Link, h: Host) { l in t && (t[l].0 == h || t[l].1 == h) }

  function Peer(t: Topology, l: Link, h: Host): Host
    requires IsEnd(t, l, h)
  {
    if t[l].0 == h then t[l].1 else t[l].0
  }

  /** `channels[(l, h)]` is on its way to `h`. An end is open until its host notices that the link closed. */
  datatype Net = Net(begun: bool, leases: map<Host, Lease>, channels: map<(Link, Host), seq<Word>>,
      open: set<(Link, Host)>)

  function LeaseAt(n: Net, h: Host): Lease { if h in n.leases then n.leases[h] else NO_LEASE }

  function Inbound(n: Net, l: Link, h: Host): seq<Word> { if (l, h) in n.channels then n.channels[(l, h)] else [] }

  function Ends(t: Topology): set<(Link, Host)> {
    (set l | l in t :: (l, t[l].0)) + (set l | l in t :: (l, t[l].1))
  }

  function Fresh(t: Topology): Net {
    Net(false, map[], map e | e in Ends(t) :: [], Ends(t))
  }

  datatype Event =
    | Begin(h: Host)
    | CallOut(h: Host, over: Link)
    | Arrive(l: Link, h: Host, retained: bool)
    | Return(h: Host)
    | Use(h: Host, on: Held)
    | Lost(l: Link, h: Host)

  /** A frame reaches an open end; what is sent to a closed one, or from it, is lost. */
  predicate Passes(t: Topology, n: Net, l: Link, h: Host) {
    IsEnd(t, l, h) && (l, h) in n.open && (l, Peer(t, l, h)) in n.open
  }

  /** `f` goes out from `h` over `links`. */
  function SendOver(t: Topology, n: Net, h: Host, links: set<Link>, f: Word): Net {
    n.(channels := map e | e in n.channels ::
      if e.0 in links && Passes(t, n, e.0, h) && e.1 == Peer(t, e.0, h) then n.channels[e] + [f] else n.channels[e])
  }

  /** The host's lease moves; if that ended it, the links the root's calls went out on hear so. */
  function Moved(t: Topology, n: Net, h: Host, r: Root, e: RootLeases.Event): Net {
    var (before, after) := (LeaseAt(n, h), Next(LeaseAt(n, h), e));
    var told := if Kept(before) && !Kept(after) then SendOver(t, n, h, before.sent, End) else n;
    told.(leases := n.leases[h := after])
  }

  /** Everything but what arrives is up to the hosts; a root runs in a retained code version while it runs at all. */
  predicate Enabled(t: Topology, n: Net, e: Event) {
    match e
    case Begin(h) => !n.begun
    case CallOut(h, l) => LeaseAt(n, h).calls > 0 && IsEnd(t, l, h) && (l, h) in n.open
    case Arrive(l, h, retained) =>
      IsEnd(t, l, h) && (l, h) in n.open && Inbound(n, l, h) != [] && (LeaseAt(n, h).calls > 0 ==> retained)
    case Return(h) => LeaseAt(n, h).calls > 0
    case Use(h, _) => LeaseAt(n, h).calls > 0
    case Lost(l, h) => IsEnd(t, l, h) && (l, h) in n.open
  }

  function Step(t: Topology, n: Net, r: Root, e: Event): Net
    requires Enabled(t, n, e)
  {
    match e
    case Begin(h) => Moved(t, n, h, r, Start(r)).(begun := true)
    case CallOut(h, l) => SendOver(t, Moved(t, n, h, r, Send(r, l)), h, {l}, Call)
    case Arrive(l, h, retained) =>
      var taken := n.(channels := n.channels[(l, h) := Inbound(n, l, h)[1..]]);
      Moved(t, taken, h, r,
            if Inbound(n, l, h)[0].End? then RootEnd(r, l) else if retained then Join(r, l) else Refuse(r))
    case Return(h) => Moved(t, n, h, r, Settle(r))
    case Use(h, on) => Moved(t, n, h, r, Touch(r, on))
    case Lost(l, h) =>
      Moved(t, n.(open := n.open - {(l, h)}, channels := n.channels[(l, h) := []]), h, r, Close(l))
  }

  /** A run skips what cannot happen. */
  function Run(t: Topology, r: Root, events: seq<Event>): Net {
    if events == [] then Fresh(t)
    else
      var n := Run(t, r, events[..|events| - 1]);
      var e := events[|events| - 1];
      if Enabled(t, n, e) then Step(t, n, r, e) else n
  }

  // --- what every run keeps ---

  /** The lease of one host is whole, and speaks of open ends only. */
  predicate Sound(t: Topology, n: Net, h: Host) {
    var v := LeaseAt(n, h);
    && Whole(v)
    && (forall l | l in v.brought :: IsEnd(t, l, h) && (l, h) in n.open)
    && (forall l | l in v.sent :: IsEnd(t, l, h) && (l, h) in n.open)
  }

  /**
   * What `h` counts on over `l` is what its peer will still announce there, unless a word to that effect is on its way;
   * nothing is on its way to a closed end.
   */
  predicate Linked(t: Topology, n: Net, l: Link, h: Host) {
    IsEnd(t, l, h) ==>
      var q := Inbound(n, l, h);
      var promised := l in LeaseAt(n, Peer(t, l, h)).sent;
      && ((l, h) !in n.open ==> q == [])
      && ((l, Peer(t, l, h)) in n.open ==>
            if q == [] then l in LeaseAt(n, h).brought ==> promised else q[|q| - 1].Call? ==> promised)
  }

  /** Nothing happened yet. */
  predicate Untouched(t: Topology, n: Net) {
    (forall h | h in n.leases :: n.leases[h] == NO_LEASE) && (forall e | e in n.channels :: n.channels[e] == [])
  }

  ghost predicate Inv(t: Topology, n: Net) {
    && n.channels.Keys == Ends(t) && n.open <= Ends(t)
    && (forall h: Host :: Sound(t, n, h))
    && (forall l: Link, h: Host :: Linked(t, n, l, h))
    && (!n.begun ==> Untouched(t, n))
  }

  lemma EndsAreEnds(t: Topology, l: Link, h: Host)
    ensures (l, h) in Ends(t) <==> IsEnd(t, l, h)
  {
  }

  lemma PeerOfPeer(t: Topology, l: Link, h: Host)
    requires Proper(t) && IsEnd(t, l, h)
    ensures IsEnd(t, l, Peer(t, l, h)) && Peer(t, l, Peer(t, l, h)) == h && Peer(t, l, h) != h
  {
  }

  /** What an event may name: ends of this host that are open. */
  predicate Named(t: Topology, n: Net, h: Host, e: RootLeases.Event) {
    match e
    case Join(_, from) => IsEnd(t, from, h) && (from, h) in n.open
    case Send(_, over) => IsEnd(t, over, h) && (over, h) in n.open
    case Refuse(_) => LeaseAt(n, h).calls == 0
    case _ => true
  }

  lemma MovedSound(t: Topology, n: Net, h: Host, r: Root, e: RootLeases.Event, g: Host)
    requires Sound(t, n, g) && Possible(LeaseAt(n, h), e) && Named(t, n, h, e) && !e.Close?
    ensures Sound(t, Moved(t, n, h, r, e), g)
  {
  }

  /** An announcement, or none, over one link. */
  lemma SentOver(t: Topology, n: Net, h: Host, links: set<Link>, f: Word, l: Link, g: Host)
    requires IsEnd(t, l, g) && n.channels.Keys == Ends(t)
    ensures var after := SendOver(t, n, h, links, f);
      && after == n.(channels := after.channels) && after.channels.Keys == Ends(t)
      && Inbound(after, l, g) ==
           Inbound(n, l, g) + if l in links && Passes(t, n, l, h) && g == Peer(t, l, h) then [f] else []
  {
    EndsAreEnds(t, l, g);
  }

  lemma MovedLinked(t: Topology, n: Net, h: Host, r: Root, e: RootLeases.Event, l: Link, g: Host)
    requires Proper(t) && n.channels.Keys == Ends(t) && !e.Close?
    requires Linked(t, n, l, g) && Sound(t, n, h) && Sound(t, n, g)
    requires
      e.Join? && g == h && l == e.from && IsEnd(t, l, h) && (l, Peer(t, l, h)) in n.open && Inbound(n, l, h) == [] ==>
      l in LeaseAt(n, Peer(t, l, h)).sent
    ensures Linked(t, Moved(t, n, h, r, e), l, g)
    ensures Moved(t, n, h, r, e).channels.Keys == Ends(t)
  {
    hide SendOver;
    if IsEnd(t, l, g) {
      PeerOfPeer(t, l, g);
      SentOver(t, n, h, LeaseAt(n, h).sent, End, l, g);
    } else {
      SentKeys(t, n, h, LeaseAt(n, h).sent, End);
    }
  }

  lemma SentKeys(t: Topology, n: Net, h: Host, links: set<Link>, f: Word)
    ensures SendOver(t, n, h, links, f).channels.Keys == n.channels.Keys
  {
  }

  // --- every step ---

  lemma SameLinked(t: Topology, n: Net, after: Net, l: Link, g: Host)
    requires Linked(t, n, l, g)
    requires after.leases == n.leases && after.channels == n.channels && after.open == n.open
    ensures Linked(t, after, l, g)
  {
  }

  lemma MoveKeeps(t: Topology, n: Net, h: Host, r: Root, e: RootLeases.Event)
    requires Proper(t) && Inv(t, n) && n.begun && !e.Close?
    requires Possible(LeaseAt(n, h), e) && Named(t, n, h, e)
    requires e.Join? && Inbound(n, e.from, h) == [] && (e.from, Peer(t, e.from, h)) in n.open ==>
      e.from in LeaseAt(n, Peer(t, e.from, h)).sent
    ensures Inv(t, Moved(t, n, h, r, e))
  {
    hide Sound, Linked, Moved;
    var after := Moved(t, n, h, r, e);
    forall g: Host ensures Sound(t, after, g) {
      MovedSound(t, n, h, r, e, g);
    }
    forall l: Link, g: Host ensures Linked(t, after, l, g) {
      assert Linked(t, n, l, g) && Sound(t, n, h) && Sound(t, n, g);
      MovedLinked(t, n, h, r, e, l, g);
    }
    assert Linked(t, n, 0, h);
    MovedLinked(t, n, h, r, e, 0, h);
    MovedKeeps(t, n, h, r, e);
  }

  lemma MovedKeeps(t: Topology, n: Net, h: Host, r: Root, e: RootLeases.Event)
    ensures Moved(t, n, h, r, e).open == n.open && Moved(t, n, h, r, e).begun == n.begun
    ensures Moved(t, n, h, r, e).leases == n.leases[h := Next(LeaseAt(n, h), e)]
  {
    SentKeys(t, n, h, LeaseAt(n, h).sent, End);
  }

  lemma BeginKeeps(t: Topology, n: Net, h: Host, r: Root)
    requires Proper(t) && Inv(t, n) && !n.begun
    ensures Inv(t, Moved(t, n, h, r, Start(r)).(begun := true))
  {
    hide Sound, Linked, Moved;
    var started := n.(begun := true);
    assert LeaseAt(n, h) == NO_LEASE;
    forall g: Host ensures Sound(t, started, g) { assert Sound(t, n, g); SameSound(t, n, started, g); }
    forall l: Link, g: Host ensures Linked(t, started, l, g) {
      assert Linked(t, n, l, g);
      SameLinked(t, n, started, l, g);
    }
    MoveKeeps(t, started, h, r, Start(r));
    assert Moved(t, n, h, r, Start(r)).(begun := true) == Moved(t, started, h, r, Start(r)) by { Starting(t, n, h, r); }
  }

  lemma Starting(t: Topology, n: Net, h: Host, r: Root)
    ensures Moved(t, n, h, r, Start(r)).(begun := true) == Moved(t, n.(begun := true), h, r, Start(r))
  {
  }

  lemma SameSound(t: Topology, n: Net, after: Net, g: Host)
    requires Sound(t, n, g) && after.leases == n.leases && after.open == n.open
    ensures Sound(t, after, g)
  {
  }

  lemma CallKeeps(t: Topology, n: Net, h: Host, r: Root, l: Link)
    requires Proper(t) && Inv(t, n) && Enabled(t, n, CallOut(h, l))
    ensures Inv(t, Step(t, n, r, CallOut(h, l)))
  {
    hide Sound, Linked, Moved, SendOver;
    assert n.begun by { RunningHasBegun(t, n, h); }
    MoveKeeps(t, n, h, r, Send(r, l));
    MovedKeeps(t, n, h, r, Send(r, l));
    var sent := Moved(t, n, h, r, Send(r, l));
    var after := SendOver(t, sent, h, {l}, Call);
    SentKeys(t, sent, h, {l}, Call);
    SentOver(t, sent, h, {l}, Call, l, h);
    forall g: Host ensures Sound(t, after, g) { assert Sound(t, sent, g); SameSound(t, sent, after, g); }
    forall k: Link, g: Host ensures Linked(t, after, k, g) {
      assert Linked(t, sent, k, g);
      CalledLinked(t, sent, h, l, k, g);
    }
  }

  lemma RunningHasBegun(t: Topology, n: Net, h: Host)
    requires Inv(t, n) && LeaseAt(n, h) != NO_LEASE
    ensures n.begun
  {
  }

  lemma CalledLinked(t: Topology, n: Net, h: Host, l: Link, k: Link, g: Host)
    requires Proper(t) && n.channels.Keys == Ends(t) && Linked(t, n, k, g) && IsEnd(t, l, h) && l in LeaseAt(n, h).sent
    ensures Linked(t, SendOver(t, n, h, {l}, Call), k, g)
  {
    hide SendOver;
    if IsEnd(t, k, g) {
      PeerOfPeer(t, k, g);
      SentOver(t, n, h, {l}, Call, k, g);
    }
  }

  /** The head of a channel is taken off, and read. */
  lemma ArriveKeeps(t: Topology, n: Net, r: Root, l: Link, h: Host, retained: bool)
    requires Proper(t) && Inv(t, n) && Enabled(t, n, Arrive(l, h, retained))
    ensures Inv(t, Step(t, n, r, Arrive(l, h, retained)))
  {
    hide Sound, Linked, Moved;
    var q := Inbound(n, l, h);
    var taken := n.(channels := n.channels[(l, h) := q[1..]]);
    var after := Step(t, n, r, Arrive(l, h, retained));
    EndsAreEnds(t, l, h);
    assert n.begun;
    assert Sound(t, n, h) && Linked(t, n, l, h);
    if q[0].Call? && retained {
      JoinKeeps(t, n, r, l, h);
    } else if q[0].Call? {
      TakenKeeps(t, n, l, h);
      MoveKeeps(t, taken, h, r, Refuse(r));
    } else {
      EndKeeps(t, n, r, l, h);
    }
  }

  /** Taking a frame leaves the other channels, and every lease, as they are. */
  lemma TakenOther(t: Topology, n: Net, l: Link, h: Host, k: Link, g: Host)
    requires n.channels.Keys == Ends(t) && IsEnd(t, l, h) && Inbound(n, l, h) != []
    requires (k, g) != (l, h) && Linked(t, n, k, g)
    ensures Linked(t, n.(channels := n.channels[(l, h) := Inbound(n, l, h)[1..]]), k, g)
  {
  }

  /** A refused call: the peer's promise, if any, stands. */
  lemma TakenKeeps(t: Topology, n: Net, l: Link, h: Host)
    requires Proper(t) && Inv(t, n) && n.begun && IsEnd(t, l, h) && (l, h) in n.open
    requires Inbound(n, l, h) != [] && Inbound(n, l, h)[0].Call?
    ensures Inv(t, n.(channels := n.channels[(l, h) := Inbound(n, l, h)[1..]]))
  {
    hide Sound;
    var taken := n.(channels := n.channels[(l, h) := Inbound(n, l, h)[1..]]);
    EndsAreEnds(t, l, h);
    forall g: Host ensures Sound(t, taken, g) { assert Sound(t, n, g); SameSound(t, n, taken, g); }
    forall k: Link, g: Host ensures Linked(t, taken, k, g) {
      assert Linked(t, n, k, g);
      if (k, g) != (l, h) { TakenOther(t, n, l, h, k, g); }
    }
  }

  lemma JoinKeeps(t: Topology, n: Net, r: Root, l: Link, h: Host)
    requires Proper(t) && Inv(t, n) && n.begun && IsEnd(t, l, h) && (l, h) in n.open
    requires Inbound(n, l, h) != [] && Inbound(n, l, h)[0].Call?
    ensures Inv(t, Moved(t, n.(channels := n.channels[(l, h) := Inbound(n, l, h)[1..]]), h, r, Join(r, l)))
  {
    hide Sound, Moved;
    TakenKeeps(t, n, l, h);
    assert Linked(t, n, l, h);
    EndsAreEnds(t, l, h);
    MoveKeeps(t, n.(channels := n.channels[(l, h) := Inbound(n, l, h)[1..]]), h, r, Join(r, l));
  }

  /** An announcement: the link no longer counts, so nothing need be promised over it. */
  lemma EndKeeps(t: Topology, n: Net, r: Root, l: Link, h: Host)
    requires Proper(t) && Inv(t, n) && n.begun && IsEnd(t, l, h) && (l, h) in n.open
    requires Inbound(n, l, h) != [] && Inbound(n, l, h)[0].End?
    ensures Inv(t, Moved(t, n.(channels := n.channels[(l, h) := Inbound(n, l, h)[1..]]), h, r, RootEnd(r, l)))
  {
    hide Sound, Linked, Moved;
    var taken := n.(channels := n.channels[(l, h) := Inbound(n, l, h)[1..]]);
    var after := Moved(t, taken, h, r, RootEnd(r, l));
    EndsAreEnds(t, l, h);
    forall g: Host ensures Sound(t, taken, g) { assert Sound(t, n, g); SameSound(t, n, taken, g); }
    forall g: Host ensures Sound(t, after, g) { MovedSound(t, taken, h, r, RootEnd(r, l), g); }
    forall k: Link, g: Host ensures Linked(t, after, k, g) {
      assert Linked(t, n, k, g) && Sound(t, taken, g) && Sound(t, taken, h);
      if (k, g) == (l, h) {
        EndLinked(t, n, r, l, h);
      } else {
        TakenOther(t, n, l, h, k, g);
        MovedLinked(t, taken, h, r, RootEnd(r, l), k, g);
      }
    }
    MovedKeeps(t, taken, h, r, RootEnd(r, l));
    MovedChannels(t, taken, h, r, RootEnd(r, l));
  }

  lemma MovedChannels(t: Topology, n: Net, h: Host, r: Root, e: RootLeases.Event)
    ensures Moved(t, n, h, r, e).channels.Keys == n.channels.Keys
  {
    SentKeys(t, n, h, LeaseAt(n, h).sent, End);
  }

  lemma EndLinked(t: Topology, n: Net, r: Root, l: Link, h: Host)
    requires Proper(t) && n.channels.Keys == Ends(t) && Linked(t, n, l, h) && Sound(t, n, h)
    requires IsEnd(t, l, h) && (l, h) in n.open && Inbound(n, l, h) != [] && Inbound(n, l, h)[0].End?
    ensures Linked(t, Moved(t, n.(channels := n.channels[(l, h) := Inbound(n, l, h)[1..]]), h, r, RootEnd(r, l)), l, h)
  {
    hide SendOver;
    var q := Inbound(n, l, h);
    var taken := n.(channels := n.channels[(l, h) := q[1..]]);
    EndsAreEnds(t, l, h);
    PeerOfPeer(t, l, h);
    SentOver(t, taken, h, LeaseAt(n, h).sent, End, l, h);
  }

  /** A host notices that a link closed: nothing counts over it any more, and nothing arrives. */
  lemma LostKeeps(t: Topology, n: Net, r: Root, l: Link, h: Host)
    requires Proper(t) && Inv(t, n) && Enabled(t, n, Lost(l, h))
    ensures Inv(t, Step(t, n, r, Lost(l, h)))
  {
    hide Sound, Linked, Moved;
    var cut := n.(open := n.open - {(l, h)}, channels := n.channels[(l, h) := []]);
    var after := Moved(t, cut, h, r, Close(l));
    EndsAreEnds(t, l, h);
    forall g: Host ensures Sound(t, after, g) {
      assert Sound(t, n, g);
      LostSound(t, n, r, l, h, g);
    }
    forall k: Link, g: Host ensures Linked(t, after, k, g) {
      assert Linked(t, n, k, g) && Sound(t, n, g) && Sound(t, n, h);
      LostLinked(t, n, r, l, h, k, g);
    }
    MovedKeeps(t, cut, h, r, Close(l));
    MovedChannels(t, cut, h, r, Close(l));
    if !n.begun { LostUntouched(t, n, r, l, h); }
  }

  lemma LostUntouched(t: Topology, n: Net, r: Root, l: Link, h: Host)
    requires Untouched(t, n)
    ensures Untouched(t, Moved(t, n.(open := n.open - {(l, h)}, channels := n.channels[(l, h) := []]), h, r, Close(l)))
  {
    assert LeaseAt(n, h) == NO_LEASE;
    assert NO_LEASE.sent - {l} == {};
  }

  lemma LostSound(t: Topology, n: Net, r: Root, l: Link, h: Host, g: Host)
    requires Sound(t, n, g) && IsEnd(t, l, h)
    ensures Sound(t, Moved(t, n.(open := n.open - {(l, h)}, channels := n.channels[(l, h) := []]), h, r, Close(l)), g)
  {
    assert {} - {l} == {};
  }

  lemma LostLinked(t: Topology, n: Net, r: Root, l: Link, h: Host, k: Link, g: Host)
    requires Proper(t) && n.channels.Keys == Ends(t) && IsEnd(t, l, h)
    requires Linked(t, n, k, g) && Sound(t, n, h) && Sound(t, n, g)
    ensures var cut := n.(open := n.open - {(l, h)}, channels := n.channels[(l, h) := []]);
      Linked(t, Moved(t, cut, h, r, Close(l)), k, g)
  {
    var cut := n.(open := n.open - {(l, h)}, channels := n.channels[(l, h) := []]);
    EndsAreEnds(t, l, h);
    assert cut.channels.Keys == Ends(t);
    if IsEnd(t, k, g) {
      PeerOfPeer(t, k, g);
      if g == h { LostHere(t, n, r, l, h, k); } else { LostThere(t, n, r, l, h, k, g); }
    }
  }

  lemma LostHere(t: Topology, n: Net, r: Root, l: Link, h: Host, k: Link)
    requires Proper(t) && n.channels.Keys == Ends(t) && IsEnd(t, l, h) && IsEnd(t, k, h)
    requires Linked(t, n, k, h) && Sound(t, n, h)
    ensures var cut := n.(open := n.open - {(l, h)}, channels := n.channels[(l, h) := []]);
      Linked(t, Moved(t, cut, h, r, Close(l)), k, h)
  {
    hide SendOver;
    var cut := n.(open := n.open - {(l, h)}, channels := n.channels[(l, h) := []]);
    EndsAreEnds(t, l, h);
    PeerOfPeer(t, k, h);
    assert cut.channels.Keys == Ends(t);
    SentOver(t, cut, h, LeaseAt(n, h).sent, End, k, h);
  }

  lemma LostThere(t: Topology, n: Net, r: Root, l: Link, h: Host, k: Link, g: Host)
    requires Proper(t) && n.channels.Keys == Ends(t) && IsEnd(t, l, h) && IsEnd(t, k, g) && g != h
    requires Linked(t, n, k, g) && Sound(t, n, h) && Sound(t, n, g)
    ensures var cut := n.(open := n.open - {(l, h)}, channels := n.channels[(l, h) := []]);
      Linked(t, Moved(t, cut, h, r, Close(l)), k, g)
  {
    hide SendOver;
    var cut := n.(open := n.open - {(l, h)}, channels := n.channels[(l, h) := []]);
    EndsAreEnds(t, l, h);
    PeerOfPeer(t, k, g);
    assert cut.channels.Keys == Ends(t);
    SentOver(t, cut, h, LeaseAt(n, h).sent, End, k, g);
  }

  lemma StepKeeps(t: Topology, n: Net, r: Root, e: Event)
    requires Proper(t) && Inv(t, n) && Enabled(t, n, e)
    ensures Inv(t, Step(t, n, r, e))
  {
    hide Inv, Moved, SendOver;
    match e
    case Begin(h) => BeginKeeps(t, n, h, r);
    case CallOut(h, l) => CallKeeps(t, n, h, r, l);
    case Arrive(l, h, retained) => ArriveKeeps(t, n, r, l, h, retained);
    case Return(h) =>
      RunningHasBegun(t, n, h);
      MoveKeeps(t, n, h, r, Settle(r));
    case Use(h, on) =>
      RunningHasBegun(t, n, h);
      MoveKeeps(t, n, h, r, Touch(r, on));
    case Lost(l, h) => LostKeeps(t, n, r, l, h);
  }

  lemma {:induction false} RunKeeps(t: Topology, r: Root, events: seq<Event>)
    requires Proper(t)
    ensures Inv(t, Run(t, r, events))
  {
    if events != [] {
      var init := events[..|events| - 1];
      RunKeeps(t, r, init);
      var e := events[|events| - 1];
      if Enabled(t, Run(t, r, init), e) { StepKeeps(t, Run(t, r, init), r, e); }
    }
  }

  // --- when all leases end ---

  /** `a` counts link `l` as bringing the root, and `b` at its other end has yet to announce the end there. */
  predicate WaitsVia(t: Topology, n: Net, a: Host, b: Host, l: Link) {
    IsEnd(t, l, a) && Peer(t, l, a) == b && l in LeaseAt(n, a).brought && l in LeaseAt(n, b).sent
  }

  ghost predicate WaitsFor(t: Topology, n: Net, a: Host, b: Host) {
    exists l :: WaitsVia(t, n, a, b, l)
  }

  /** A chain of hosts, each waiting for the next. */
  ghost predicate Chain(t: Topology, n: Net, p: seq<Host>) {
    p != [] && forall i | 0 < i < |p| :: WaitsFor(t, n, p[i - 1], p[i])
  }

  ghost predicate Cycle(t: Topology, n: Net, p: seq<Host>) {
    |p| > 1 && Chain(t, n, p) && p[0] == p[|p| - 1]
  }

  /** The root began, all its calls settled, and nothing is on its way; both ends of a closed link noticed. */
  ghost predicate Quiet(t: Topology, n: Net) {
    && n.begun
    && (forall h: Host :: LeaseAt(n, h).calls == 0)
    && (forall e | e in n.channels :: n.channels[e] == [])
    && (forall l: Link, h: Host | IsEnd(t, l, h) && (l, h) in n.open :: (l, Peer(t, l, h)) in n.open)
  }

  ghost predicate Forgotten(n: Net) {
    forall h: Host :: LeaseAt(n, h) == NO_LEASE
  }

  /** A host that has not forgotten the root waits for another one that has not. */
  lemma WaitsForSomeone(t: Topology, n: Net, a: Host) returns (b: Host)
    requires Proper(t) && Inv(t, n) && Quiet(t, n) && LeaseAt(n, a) != NO_LEASE
    ensures WaitsFor(t, n, a, b) && LeaseAt(n, b) != NO_LEASE
  {
    assert Sound(t, n, a) && LeaseAt(n, a).calls == 0;
    var l :| l in LeaseAt(n, a).brought;
    assert Linked(t, n, l, a);
    b := Peer(t, l, a);
    assert Inbound(n, l, a) == [];
    assert WaitsVia(t, n, a, b, l);
  }

  lemma ChainPush(t: Topology, n: Net, p: seq<Host>, b: Host)
    requires p != [] && Chain(t, n, p) && WaitsFor(t, n, p[|p| - 1], b)
    ensures Chain(t, n, p + [b])
  {
    var q := p + [b];
    forall i | 0 < i < |q| ensures WaitsFor(t, n, q[i - 1], q[i]) {
      if i < |p| { assert q[i - 1] == p[i - 1] && q[i] == p[i]; }
    }
  }

  lemma ChainTail(t: Topology, n: Net, p: seq<Host>, i: nat)
    requires Chain(t, n, p) && i < |p|
    ensures Chain(t, n, p[i..])
  {
    var q := p[i..];
    forall k | 0 < k < |q| ensures WaitsFor(t, n, q[k - 1], q[k]) {
      assert q[k - 1] == p[i + k - 1] && q[k] == p[i + k];
    }
  }

  /** There are only so many hosts: following who waits for whom comes back to where it was. */
  lemma {:induction false} Chase(t: Topology, n: Net, p: seq<Host>) returns (cycle: seq<Host>)
    requires Proper(t) && Inv(t, n) && Quiet(t, n) && p != [] && Chain(t, n, p)
    requires forall x | x in p :: LeaseAt(n, x) != NO_LEASE
    ensures Cycle(t, n, cycle)
    decreases |n.leases.Keys - (set x | x in p)|
  {
    hide Inv, Quiet, WaitsFor, Chain;
    var last := p[|p| - 1];
    assert last in p;
    var b := WaitsForSomeone(t, n, last);
    ChainPush(t, n, p, b);
    if b in p {
      var i :| 0 <= i < |p| && p[i] == b;
      ChainTail(t, n, p + [b], i);
      cycle := (p + [b])[i..];
      assert cycle[0] == b && cycle[|cycle| - 1] == b;
    } else {
      OneMoreSeen(n, p, b);
      cycle := Chase(t, n, p + [b]);
    }
  }

  lemma OneMoreSeen(n: Net, p: seq<Host>, b: Host)
    requires b !in p && LeaseAt(n, b) != NO_LEASE
    ensures |n.leases.Keys - (set x | x in p + [b])| < |n.leases.Keys - (set x | x in p)|
  {
    var seen := set x | x in p;
    var more := set x | x in p + [b];
    assert more == seen + {b};
    assert n.leases.Keys - more == n.leases.Keys - (seen + {b});
    assert b in n.leases.Keys - seen;
    ProperSubsetSize(n.leases.Keys - (seen + {b}), n.leases.Keys - seen);
  }

  /**
   * Once the root's calls all settled and nothing is on its way, every host has forgotten the root exactly if no hosts
   * wait for each other in a circle.
   */
  lemma LeasesEndUnlessCircular(t: Topology, r: Root, events: seq<Event>)
    requires Proper(t) && Quiet(t, Run(t, r, events))
    ensures Forgotten(Run(t, r, events)) <==> !exists p :: Cycle(t, Run(t, r, events), p)
  {
    var n := Run(t, r, events);
    RunKeeps(t, r, events);
    if !Forgotten(n) {
      var h: Host :| LeaseAt(n, h) != NO_LEASE;
      var p := Chase(t, n, [h]);
    }
    if p :| Cycle(t, n, p) {
      assert WaitsFor(t, n, p[0], p[1]);
      var l :| WaitsVia(t, n, p[0], p[1], l);
      assert LeaseAt(n, p[0]) != NO_LEASE;
    }
  }

  // --- the circle lasts ---

  /** In a quiet network the root can do nothing more: only links can still close. */
  lemma QuietIsFinal(t: Topology, n: Net, e: Event)
    requires Quiet(t, n) && Enabled(t, n, e)
    ensures e.Lost?
  {
  }

  /** However long it goes on, nothing changes until a link closes. */
  lemma {:induction false} QuietStays(t: Topology, r: Root, events: seq<Event>, later: seq<Event>)
    requires Quiet(t, Run(t, r, events)) && forall i | 0 <= i < |later| :: !later[i].Lost?
    ensures Run(t, r, events + later) == Run(t, r, events)
  {
    hide Quiet, Enabled, Step;
    if later == [] {
      assert events + later == events;
    } else {
      var init, e := later[..|later| - 1], later[|later| - 1];
      assert forall i | 0 <= i < |init| :: init[i] == later[i];
      QuietStays(t, r, events, init);
      assert (events + later)[..|events + later| - 1] == events + init;
      if Enabled(t, Run(t, r, events), e) { QuietIsFinal(t, Run(t, r, events), e); }
    }
  }

  /** Who waits in a circle goes on waiting until one of the circle's own links closes. */
  lemma WaitLasts(t: Topology, n: Net, r: Root, a: Host, b: Host, c: Host, l: Link, m: Link, lost: Link, h: Host)
    requires Proper(t) && Inv(t, n) && Quiet(t, n) && Enabled(t, n, Lost(lost, h))
    requires WaitsVia(t, n, a, b, l) && WaitsVia(t, n, b, c, m) && lost != l && lost != m
    ensures WaitsVia(t, Step(t, n, r, Lost(lost, h)), a, b, l)
  {
    hide SendOver;
    var cut := n.(open := n.open - {(lost, h)}, channels := n.channels[(lost, h) := []]);
    MovedKeeps(t, cut, h, r, Close(lost));
    assert l in LeaseAt(n, a).brought - {lost} && m in LeaseAt(n, b).brought - {lost};
    assert l in LeaseAt(n, b).sent - {lost};
  }

  // --- what a caller can see to ---

  /** Who entered the root from whom: calls that counted, on hosts that are not its origin. */
  function Entries(t: Topology, r: Root, events: seq<Event>): set<(Host, Host)> {
    if events == [] then {}
    else
      var init := events[..|events| - 1];
      var n := Run(t, r, init);
      var e := events[|events| - 1];
      Entries(t, r, init) +
      if e.Arrive? && Enabled(t, n, e) && Inbound(n, e.l, e.h)[0].Call? && e.retained && !LeaseAt(n, e.h).mine
      then {(e.h, Peer(t, e.l, e.h))} else {}
  }

  /** The root came back to a host through hosts it had called from there. */
  ghost predicate Reentered(entries: set<(Host, Host)>, p: seq<Host>) {
    |p| > 1 && p[0] == p[|p| - 1] && forall i | 0 < i < |p| :: (p[i - 1], p[i]) in entries
  }

  lemma {:induction false} BroughtWasEntered(t: Topology, r: Root, events: seq<Event>, l: Link, a: Host)
    requires Proper(t) && l in LeaseAt(Run(t, r, events), a).brought
    ensures IsEnd(t, l, a) && (a, Peer(t, l, a)) in Entries(t, r, events)
  {
    RunKeeps(t, r, events);
    assert Sound(t, Run(t, r, events), a);
    if events != [] {
      var init, e := events[..|events| - 1], events[|events| - 1];
      var n := Run(t, r, init);
      if l in LeaseAt(n, a).brought {
        BroughtWasEntered(t, r, init, l, a);
      } else {
        assert Enabled(t, n, e);
        BroughtByCall(t, n, r, e, l, a);
      }
    }
  }

  /** Only a call that is accepted brings the root over a link. */
  lemma BroughtByCall(t: Topology, n: Net, r: Root, e: Event, l: Link, a: Host)
    requires Enabled(t, n, e) && l !in LeaseAt(n, a).brought && l in LeaseAt(Step(t, n, r, e), a).brought
    ensures e.Arrive? && e.h == a && e.l == l && Inbound(n, e.l, e.h)[0].Call? && e.retained && !LeaseAt(n, e.h).mine
  {
  }

  /** A root that never comes back to a host it entered leaves no lease behind. */
  lemma NoReentryNoLeak(t: Topology, r: Root, events: seq<Event>)
    requires Proper(t) && Quiet(t, Run(t, r, events))
    requires !exists p :: Reentered(Entries(t, r, events), p)
    ensures Forgotten(Run(t, r, events))
  {
    var n := Run(t, r, events);
    LeasesEndUnlessCircular(t, r, events);
    if p :| Cycle(t, n, p) {
      forall i | 0 < i < |p| ensures (p[i - 1], p[i]) in Entries(t, r, events) {
        assert WaitsFor(t, n, p[i - 1], p[i]);
        var l :| WaitsVia(t, n, p[i - 1], p[i], l);
        BroughtWasEntered(t, r, events, l, p[i - 1]);
      }
      assert Reentered(Entries(t, r, events), p);
    }
  }
}

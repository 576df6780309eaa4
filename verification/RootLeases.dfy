/**
  * How long a root's leases on objects last on one host. A root runs here in one code version, and code
  * versions retire only once their roots ended.
  *
  * `Lease` is the simple form: everything about one root in one record, cleared when nothing keeps it. The
  * host keeps the same facts spread over five tables (`RootTable`).
  */
module RootLeases {

  import opened Streams

  type Root(==, !new)
  type Link = nat
  type Held(==, !new)

  /**
    * `mine`: the root started here. `calls`: its calls running here. `brought`: the links that brought it
    * and neither announced its end nor closed. `touched`: the objects it has leases on. `sent`: the links
    * its calls went out on.
    */
  datatype Lease = Lease(mine: bool, calls: nat, brought: set<Link>, touched: set<Held>, sent: set<Link>)

  const NO_LEASE := Lease(false, 0, {}, {}, {})

  /** Something keeps the root's leases: a call running here, or a link that may bring it again. */
  predicate Kept(v: Lease) { v.calls > 0 || v.brought != {} }

  function Settled(v: Lease): Lease { if Kept(v) then v else NO_LEASE }

  datatype Event =
    | Start(r: Root)
    | Join(r: Root, from: Link)
    | Refuse(r: Root)
    | Settle(r: Root)
    | Touch(r: Root, on: Held)
    | Send(r: Root, over: Link)
    | RootEnd(r: Root, from: Link)
    | Close(link: Link)

  predicate About(e: Event, r: Root) { e.Close? || e.r == r }

  /** What one event does to the lease of a root it is about. */
  function Next(v: Lease, e: Event): Lease {
    match e
    case Start(_) => v.(mine := true, calls := v.calls + 1)
    case Join(_, from) => v.(calls := v.calls + 1, brought := if v.mine then v.brought else v.brought + {from})
    case Refuse(_) => v.(mine := false)
    case Settle(_) => Settled(v.(calls := if v.calls > 0 then v.calls - 1 else 0))
    case Touch(_, on) => v.(touched := v.touched + {on})
    case Send(_, over) => v.(sent := v.sent + {over})
    case RootEnd(_, from) => if from in v.brought then Settled(v.(brought := v.brought - {from})) else v
    case Close(link) =>
      var ended := if link in v.brought then Settled(v.(brought := v.brought - {link})) else v;
      ended.(sent := ended.sent - {link})
  }

  /** A root id is new when a root starts here; a root touches, calls out and settles while it runs here. */
  predicate Possible(v: Lease, e: Event) {
    match e
    case Start(_) => v == NO_LEASE
    case Settle(_) => v.calls > 0
    case Touch(_, _) => v.calls > 0
    case Send(_, _) => v.calls > 0
    case _ => true
  }

  /** The life of root `r` on this host, from the whole history. */
  function LeaseOf(history: seq<Event>, r: Root): Lease {
    if history == [] then NO_LEASE
    else
      var before := LeaseOf(history[..|history| - 1], r);
      var e := history[|history| - 1];
      if About(e, r) then Next(before, e) else before
  }

  ghost predicate Honest(history: seq<Event>) {
    forall i :: 0 <= i < |history| && !history[i].Close? ==> Possible(LeaseOf(history[..i], history[i].r), history[i])
  }

  predicate Whole(v: Lease) {
    && (!Kept(v) ==> v == NO_LEASE)
    && (v.mine ==> v.calls > 0 && v.brought == {})
  }

  /** No leak: once nothing keeps the root, the host has forgotten it. Its own roots need a running call. */
  lemma {:induction false} LeasesDoNotLeak(history: seq<Event>, r: Root)
    requires Honest(history)
    ensures Whole(LeaseOf(history, r))
  {
    if history != [] {
      var before := history[..|history| - 1];
      HonestPrefix(history);
      LeasesDoNotLeak(before, r);
      var e := history[|history| - 1];
      if !e.Close? { assert Possible(LeaseOf(before, e.r), e) by { assert history[|history| - 1] == e; } }
    }
  }

  lemma HonestPrefix(history: seq<Event>)
    requires Honest(history) && history != []
    ensures Honest(history[..|history| - 1])
  {
    var before := history[..|history| - 1];
    forall i | 0 <= i < |before| && !before[i].Close? ensures Possible(LeaseOf(before[..i], before[i].r), before[i]) {
      assert before[..i] == history[..i] && before[i] == history[i];
    }
  }

  /** Not early: a step after which something still keeps the root takes none of its leases. */
  lemma LeasesDoNotEndEarly(history: seq<Event>, e: Event, r: Root)
    requires Kept(LeaseOf(history + [e], r))
    ensures LeaseOf(history, r).touched <= LeaseOf(history + [e], r).touched
    ensures LeaseOf(history, r).sent - LeaseOf(history + [e], r).sent <= if e.Close? then {e.link} else {}
  {
    assert (history + [e])[..|history|] == history;
  }

  /** The last word of `l` about `r`: it brought it (when it was not the host's own), ended it, or closed. */
  function Brings(history: seq<Event>, r: Root, l: Link): bool {
    if history == [] then false
    else
      var before := history[..|history| - 1];
      match history[|history| - 1]
      case Join(r', from) => (r' == r && from == l && !LeaseOf(before, r).mine) || Brings(before, r, l)
      case RootEnd(r', from) => !(r' == r && from == l) && Brings(before, r, l)
      case Close(link) => link != l && Brings(before, r, l)
      case _ => Brings(before, r, l)
  }

  /** `brought` is exactly the links whose last word was to bring the root: nothing else ends it. */
  lemma {:induction false} BroughtIsLastWord(history: seq<Event>, r: Root, l: Link)
    requires Honest(history)
    ensures l in LeaseOf(history, r).brought <==> Brings(history, r, l)
  {
    if history != [] {
      HonestPrefix(history);
      BroughtIsLastWord(history[..|history| - 1], r, l);
      LeasesDoNotLeak(history[..|history| - 1], r);
      LeasesDoNotLeak(history, r);
      var e := history[|history| - 1];
      if e.Start? {
        assert Possible(LeaseOf(history[..|history| - 1], e.r), e) by { assert history[|history| - 1] == e; }
      }
    }
  }
}

/** The host's tables of roots, updated in place, against the lease each root has. */
module RootTables {

  import opened Streams
  import opened RootLeases

  datatype Joined = Joined | Superseded

  function At<K, V>(m: map<K, V>, k: K, absent: V): V { if k in m then m[k] else absent }

  class RootTable {
    /** Calls running here, by root (`CodeVersionState.roots`; a root has one code version). */
    var roots: map<Root, nat>
    var local: set<Root>
    var foreign: map<Root, set<Link>>
    var touches: map<Root, set<Held>>
    var rootLinks: map<Root, set<Link>>
    /** The leases the objects themselves keep. */
    var leases: set<(Held, Root)>
    /** The `root_end` frames sent. */
    var frames: multiset<(Link, Root)>

    constructor ()
      ensures Valid() && frames == multiset{} && forall r :: View(r) == NO_LEASE
    {
      roots, local, foreign, touches, rootLinks, leases, frames := map[], {}, map[], map[], map[], {}, multiset{};
    }

    function View(r: Root): Lease
      reads this
    {
      Lease(r in local, At(roots, r, 0), At(foreign, r, {}), At(touches, r, {}), At(rootLinks, r, {}))
    }

    ghost predicate Valid()
      reads this
    {
      && (forall r :: r in roots ==> roots[r] > 0)
      && (forall r :: r in foreign ==> foreign[r] != {} && r !in local)
      && (forall r :: r in local ==> r in roots)
      && (forall r :: r in touches ==> r in roots || r in foreign)
      && (forall r :: r in rootLinks ==> r in roots || r in foreign)
      && LeasesMatch()
    }

    /** The objects' own leases are the ones the host remembers. */
    ghost predicate LeasesMatch()
      reads this
    {
      forall o, r :: (o, r) in leases <==> r in touches && o in touches[r]
    }

    /** Every root's lease moved by `e`, and the ended ones announced their end. */
    twostate predicate Moved(e: Event)
      reads this
    {
      forall r :: View(r) == if About(e, r) then Next(old(View(r)), e) else old(View(r))
    }

    /** `root`: a call of a new root. */
    method StartRoot(r: Root, retained: bool) returns (outcome: Joined)
      requires Valid() && View(r) == NO_LEASE
      modifies this
      ensures Valid() && frames == old(frames)
      ensures outcome == if retained then Joined.Joined else Superseded
      ensures retained ==> Moved(Start(r))
      ensures !retained ==> forall r' :: View(r') == old(View(r'))
    {
      local := local + {r};
      if !retained {
        local := local - {r};
        return Superseded;
      }
      roots := roots[r := At(roots, r, 0) + 1];
      return Joined.Joined;
    }

    /** `joinRoot`: the count of the link is what `RootNetwork` relates to its peer. */
    method JoinRoot(r: Root, retained: bool, from: Link) returns (outcome: Joined)
      requires Valid()
      modifies this
      ensures Valid() && frames == old(frames)
      ensures outcome == if retained then Joined.Joined else Superseded
      ensures Moved(if retained then Join(r, from) else Refuse(r))
    {
      if !retained {
        local := local - {r};
        return Superseded;
      }
      if r !in local {
        foreign := foreign[r := At(foreign, r, {}) + {from}];
      }
      roots := roots[r := At(roots, r, 0) + 1];
      return Joined.Joined;
    }

    /** The `finally` of `joinRoot`: a call of `r` settled. */
    method SettleCall(r: Root)
      requires Valid() && View(r).calls > 0
      modifies this
      ensures Valid() && Moved(Settle(r))
      ensures frames == old(frames) + if Kept(View(r)) then multiset{} else Announcements(old(View(r)).sent, r)
    {
      var count := At(roots, r, 1) - 1;
      if count > 0 {
        roots := roots[r := count];
      } else {
        roots := roots - {r};
        if r !in foreign {
          EndRoot(r);
        }
      }
    }

    method Touched(r: Root, on: Held)
      requires Valid() && View(r).calls > 0
      modifies this
      ensures Valid() && Moved(Touch(r, on)) && frames == old(frames)
    {
      touches := touches[r := At(touches, r, {}) + {on}];
      leases := leases + {(on, r)};
    }

    method RootSent(r: Root, over: Link)
      requires Valid() && View(r).calls > 0
      modifies this
      ensures Valid() && Moved(Send(r, over)) && frames == old(frames)
    {
      rootLinks := rootLinks[r := At(rootLinks, r, {}) + {over}];
    }

    /** Every object the root touched lets go of its lease. */
    method ReleaseObjects(objects: set<Held>, r: Root)
      modifies this`leases
      ensures forall o, r' :: (o, r') in leases <==> (o, r') in old(leases) && !(r' == r && o in objects)
    {
      var left := objects;
      while left != {}
        invariant left <= objects
        invariant forall o, r' :: (o, r') in leases <==> (o, r') in old(leases) && !(r' == r && o in objects - left)
        decreases |left|
      {
        var on: Held :| on in left;
        left := left - {on};
        leases := leases - {(on, r)};
      }
    }

    method SendEnds(links: set<Link>, r: Root)
      modifies this`frames
      ensures frames == old(frames) + Announcements(links, r)
    {
      var left := links;
      while left != {}
        invariant left <= links
        invariant frames + Announcements(left, r) == old(frames) + Announcements(links, r)
        decreases |left|
      {
        var link: Link :| link in left;
        AnnounceOne(left, link, r);
        left := left - {link};
        frames := frames + multiset{(link, r)};
      }
    }

    method EndRoot(r: Root)
      requires r !in roots
      requires LeasesMatch()
      modifies this
      ensures roots == old(roots) && foreign == old(foreign) - {r} && local == old(local) - {r}
      ensures touches == old(touches) - {r} && rootLinks == old(rootLinks) - {r}
      ensures LeasesMatch()
      ensures frames == old(frames) + Announcements(old(View(r)).sent, r)
    {
      local := local - {r};
      foreign := foreign - {r};
      ReleaseObjects(At(touches, r, {}), r);
      touches := touches - {r};
      SendEnds(At(rootLinks, r, {}), r);
      rootLinks := rootLinks - {r};
    }

    method ForeignRootEnded(r: Root, from: Link)
      requires Valid()
      modifies this
      ensures Valid() && Moved(RootEnd(r, from))
      ensures frames == old(frames) +
        if Kept(old(View(r))) && !Kept(View(r)) then Announcements(old(View(r)).sent, r) else multiset{}
    {
      if r !in foreign || from !in foreign[r] {
        return;
      }
      if foreign[r] - {from} != {} {
        foreign := foreign[r := foreign[r] - {from}];
        return;
      }
      if r in roots {
        foreign := foreign - {r};
      } else {
        EndRoot(r);
      }
    }

    /** Every root counted for the link loses that count, as if it had been announced there. */
    method EndRootsFrom(link: Link)
      requires Valid()
      modifies this
      ensures Valid()
      ensures forall r :: View(r) == Next(old(View(r)), RootEnd(r, link))
    {
      var left := foreign.Keys;
      ghost var all := left;
      while left != {}
        invariant Valid() && left <= all
        invariant forall r :: View(r) == if r in all - left then Next(old(View(r)), RootEnd(r, link)) else old(View(r))
        decreases |left|
      {
        var r: Root :| r in left;
        left := left - {r};
        assert View(r) == old(View(r));
        ForeignRootEnded(r, link);
      }
      forall r | r !in all ensures View(r) == Next(old(View(r)), RootEnd(r, link)) {
        assert View(r) == old(View(r)) && old(View(r)).brought == {};
      }
    }

    /** A root that still runs here does not announce its end over the link any more. */
    method ForgetLink(link: Link)
      modifies this`rootLinks
      ensures rootLinks == map r | r in old(rootLinks) :: old(rootLinks)[r] - {link}
    {
      var left := rootLinks.Keys;
      while left != {}
        invariant left <= rootLinks.Keys && rootLinks.Keys == old(rootLinks).Keys
        invariant forall r :: r in rootLinks ==>
          rootLinks[r] == if r in left then old(rootLinks)[r] else old(rootLinks)[r] - {link}
        decreases |left|
      {
        var r: Root :| r in left;
        left := left - {r};
        rootLinks := rootLinks[r := rootLinks[r] - {link}];
      }
    }

    /** `connectionClosed`. */
    method ConnectionClosed(link: Link)
      requires Valid()
      modifies this
      ensures Valid() && Moved(Close(link))
    {
      EndRootsFrom(link);
      label Ended:
      ForgetLink(link);
      forall r ensures View(r) == Next(old(View(r)), Close(link)) {
        assert old@Ended(View(r)) == Next(old(View(r)), RootEnd(r, link));
      }
    }
  }

  /** Exactly the remembered links hear of the end, each once. */
  function Announcements(links: set<Link>, r: Root): multiset<(Link, Root)> {
    multiset(set l | l in links :: (l, r))
  }

  lemma AnnounceOne(links: set<Link>, link: Link, r: Root)
    requires link in links
    ensures Announcements(links, r) == Announcements(links - {link}, r) + multiset{(link, r)}
  {
    assert (set l | l in links :: (l, r)) == (set l | l in links - {link} :: (l, r)) + {(link, r)};
  }
}

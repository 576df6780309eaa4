/**
  * Relayed holds and the calls through them, on one host: from a hold that arrives on an origin link to its
  * release, whatever settles, is cancelled, revoked or disconnected in between. The maps of the source's
  * objects are maps of this state, keyed by the object they belong to.
  */
module RelayLifecycle {

  import opened Streams

  type Conn(==, !new)
  type Relay(==, !new)
  type Call(==, !new)

  /** An id of a hold or a call on a link. */
  datatype Twin = Twin(conn: Conn, id: nat)

  datatype Frame = HoldFrame | CallFrame | CancelFrame | GoneFrame

  /** A forwarded call: the relay it went through, its id on the origin link, and its twin downstream. */
  datatype Forwarded = Forwarded(relay: Relay, originId: nat, twin: Twin)

  /**
    * The relays: `served` and `relayedRefs` of the connections, and of every relay its hold on the origin
    * link, its twin downstream once the route resolved, and whether it closed.
    */
  datatype Refs = Refs(
    served: map<Twin, Relay>,
    relayedRefs: map<Twin, Relay>,
    origin: map<Relay, Twin>,
    down: map<Relay, Twin>,
    shut: set<Relay>
  )

  /**
    * The calls: those waiting for a route, `relay.calls`, `relayedCalls` of the connections, what each
    * forwarded call was constructed with, and every settlement of a call.
    */
  datatype Traffic = Traffic(
    waiting: map<Call, (Relay, nat)>,
    calls: map<(Relay, nat), Call>,
    relayedCalls: map<Twin, Call>,
    forwarded: map<Call, Forwarded>,
    settled: multiset<Call>
  )

  type Ids = map<Conn, nat>

  /** `slots`: the holds with state waiting. `released`: the release frames sent. `sent`: the other frames. */
  datatype Table = Table(
    refs: Refs,
    traffic: Traffic,
    slots: set<Twin>,
    ids: Ids,
    released: multiset<Twin>,
    sent: multiset<(Twin, Frame)>
  )

  const NOTHING := Table(
    Refs(map[], map[], map[], map[], {}),
    Traffic(map[], map[], map[], map[], multiset{}),
    {}, map[], multiset{}, multiset{})

  /** A connection's ids count up. */
  function NextId(ids: Ids, c: Conn): nat { if c in ids then ids[c] else 0 }

  function Send(t: Table, twin: Twin, f: Frame): Table { t.(sent := t.sent + multiset{(twin, f)}) }

  predicate Open(refs: Refs, r: Relay) { r in refs.origin && r !in refs.shut }

  /** `RelayCall.finish`: the first time only. */
  function Finish(c: Traffic, k: Call): Traffic
    requires k in c.forwarded
  {
    var f := c.forwarded[k];
    if c.settled[k] > 0 then c
    else c.(settled := c.settled + multiset{k}, calls := c.calls - {(f.relay, f.originId)},
      relayedCalls := c.relayedCalls - {f.twin})
  }

  function CallsOf(c: Traffic, r: Relay): set<Call> { set key | key in c.calls && key.0 == r :: c.calls[key] }

  function KeysOf(c: Traffic, r: Relay): set<(Relay, nat)> { set key | key in c.calls && key.0 == r }

  function TwinsOf(c: Traffic, r: Relay): set<Twin> {
    set k | k in CallsOf(c, r) && k in c.forwarded :: c.forwarded[k].twin
  }

  function WaitingFor(c: Traffic, r: Relay): set<Call> { set k | k in c.waiting && c.waiting[k].0 == r }

  /** A closing relay settles its calls and rejects those waiting for its route. */
  function SettleAll(c: Traffic, r: Relay): Traffic {
    c.(calls := c.calls - KeysOf(c, r),
       relayedCalls := c.relayedCalls - TwinsOf(c, r),
       settled := c.settled + multiset(CallsOf(c, r)) + multiset(WaitingFor(c, r)),
       waiting := c.waiting - WaitingFor(c, r))
  }

  /** The relay's entries go: at its origin whatever relay is served there, which is this one (`RefsOk`). */
  function Unref(refs: Refs, r: Relay): Refs
    requires r in refs.origin
  {
    var o := refs.origin[r];
    refs.(shut := refs.shut + {r},
          served := refs.served - {o},
          relayedRefs := if r in refs.down then refs.relayedRefs - {refs.down[r]} else refs.relayedRefs)
  }

  /** `RelayRef.close`. */
  function Close(t: Table, r: Relay, releaseDown: bool, notify: bool): Table {
    if !Open(t.refs, r) then t
    else
      var o := t.refs.origin[r];
      var cancels :=
        if releaseDown then multiset(set twin | twin in TwinsOf(t.traffic, r) :: (twin, CancelFrame)) else multiset{};
      var gone := if notify then multiset{(o, GoneFrame)} else multiset{};
      Table(
        Unref(t.refs, r),
        SettleAll(t.traffic, r),
        t.slots - {o},
        t.ids,
        if releaseDown && r in t.refs.down then t.released + multiset{t.refs.down[r]} else t.released,
        t.sent + cancels + gone)
  }

  datatype Event =
    | HoldArrives(r: Relay, at: Twin)
    | Forward(r: Relay, to: Conn)
    | CallArrives(k: Call, r: Relay, originId: nat)
    | Continue(k: Call)
    | AbortWaiting(k: Call)
    | ResultArrives(twin: Twin)
    | CancelCall(k: Call)
    | CloseRelay(r: Relay, releaseDown: bool, notify: bool)
    | StateWaits(r: Relay)

  /** Relays and calls are new objects, and ids are not in use on their origin link. */
  predicate Enabled(t: Table, e: Event) {
    match e
    case HoldArrives(r, at) => r !in t.refs.origin && at !in t.refs.served
    case Forward(r, _) => r in t.refs.origin && r !in t.refs.down
    case CallArrives(k, r, id) =>
      && k !in t.traffic.waiting && k !in t.traffic.forwarded && t.traffic.settled[k] == 0 && r in t.refs.origin
      && (r, id) !in t.traffic.calls && forall l :: l in t.traffic.waiting ==> t.traffic.waiting[l] != (r, id)
    case Continue(k) => k in t.traffic.waiting && t.traffic.waiting[k].0 in t.refs.down
    case AbortWaiting(k) => k in t.traffic.waiting
    case CancelCall(k) => k in t.traffic.forwarded
    case _ => true
  }

  /** The route resolved: the call goes out under a twin of its own. */
  function Forwards(c: Traffic, k: Call, twin: Twin): Traffic
    requires k in c.waiting
  {
    var (r, id) := c.waiting[k];
    Traffic(c.waiting - {k}, c.calls[(r, id) := k], c.relayedCalls[twin := k],
        c.forwarded[k := Forwarded(r, id, twin)], c.settled)
  }

  function Step(t: Table, e: Event): Table
    requires Enabled(t, e)
  {
    match e
    case HoldArrives(r, at) => t.(refs := t.refs.(served := t.refs.served[at := r], origin := t.refs.origin[r := at]))
    case Forward(r, to) =>
      if r in t.refs.shut then t
      else
        var twin := Twin(to, NextId(t.ids, to));
        Send(t.(refs := t.refs.(down := t.refs.down[r := twin], relayedRefs := t.refs.relayedRefs[twin := r]),
                ids := t.ids[to := twin.id + 1]), twin, HoldFrame)
    case CallArrives(k, r, id) =>
      // `ready` of a closed relay rejects.
      if r in t.refs.shut then t.(traffic := t.traffic.(settled := t.traffic.settled + multiset{k}))
      else t.(traffic := t.traffic.(waiting := t.traffic.waiting[k := (r, id)]))
    case Continue(k) =>
      var d := t.refs.down[t.traffic.waiting[k].0].conn;
      var twin := Twin(d, NextId(t.ids, d));
      Send(t.(traffic := Forwards(t.traffic, k, twin), ids := t.ids[d := twin.id + 1]), twin, CallFrame)
    case AbortWaiting(k) =>
      t.(traffic := t.traffic.(waiting := t.traffic.waiting - {k}, settled := t.traffic.settled + multiset{k}))
    case ResultArrives(twin) =>
      if twin in t.traffic.relayedCalls && t.traffic.relayedCalls[twin] in t.traffic.forwarded
      then t.(traffic := Finish(t.traffic, t.traffic.relayedCalls[twin])) else t
    case CancelCall(k) =>
      if t.traffic.settled[k] > 0 then t
      else Send(t.(traffic := Finish(t.traffic, k)), t.traffic.forwarded[k].twin, CancelFrame)
    case CloseRelay(r, releaseDown, notify) => Close(t, r, releaseDown, notify)
    case StateWaits(r) => if Open(t.refs, r) then t.(slots := t.slots + {t.refs.origin[r]}) else t
  }

  /** A run skips the events that cannot happen where it is. */
  function Run(events: seq<Event>): Table {
    if events == [] then NOTHING
    else
      var before := Run(events[..|events| - 1]);
      var e := events[|events| - 1];
      if Enabled(before, e) then Step(before, e) else before
  }

  // ---------------------------------------------------------------------------------------------
  // What every run keeps

  predicate CallOk(c: Traffic, refs: Refs, key: (Relay, nat))
    requires key in c.calls
  {
    var k := c.calls[key];
    k in c.forwarded && c.forwarded[k].relay == key.0 && c.forwarded[k].originId == key.1 && Open(refs, key.0)
  }

  predicate TwinOk(c: Traffic, twin: Twin)
    requires twin in c.relayedCalls
  {
    c.relayedCalls[twin] in c.forwarded && c.forwarded[c.relayedCalls[twin]].twin == twin
  }

  /** A forwarded call is in both maps until it settles, and in none after. */
  predicate ForwardedOk(c: Traffic, refs: Refs, ids: Ids, k: Call)
    requires k in c.forwarded
  {
    var f := c.forwarded[k];
    && ((f.relay, f.originId) in c.calls && c.calls[(f.relay, f.originId)] == k <==> c.settled[k] == 0)
    && (f.twin in c.relayedCalls && c.relayedCalls[f.twin] == k <==> c.settled[k] == 0)
    && f.relay in refs.down && f.twin.conn == refs.down[f.relay].conn && f.twin.id < NextId(ids, f.twin.conn)
  }

  /** A relay's calls and its downstream's relayed calls are each other's inverse. */
  ghost predicate Inverse(c: Traffic, refs: Refs, ids: Ids) {
    && (forall key :: key in c.calls ==> CallOk(c, refs, key))
    && (forall twin :: twin in c.relayedCalls ==> TwinOk(c, twin))
    && (forall k :: k in c.forwarded ==> ForwardedOk(c, refs, ids, k))
  }

  /** A call waits, is forwarded or is settled, and settles at most once. */
  ghost predicate SettlesOnce(c: Traffic, refs: Refs) {
    && (forall k: Call :: c.settled[k] <= 1)
    && (forall k :: k in c.waiting ==>
          k !in c.forwarded && c.settled[k] == 0 && Open(refs, c.waiting[k].0) && c.waiting[k] !in c.calls)
    && (forall k, l :: k in c.waiting && l in c.waiting && c.waiting[k] == c.waiting[l] ==> k == l)
  }

  /** An open relay is what is served at its hold and referenced at its twin; a closed one is nowhere. */
  ghost predicate RefsOk(refs: Refs, ids: Ids) {
    && (forall at :: at in refs.served ==> Open(refs, refs.served[at]) && refs.origin[refs.served[at]] == at)
    && (forall r :: Open(refs, r) ==> refs.origin[r] in refs.served && refs.served[refs.origin[r]] == r)
    && (forall twin :: twin in refs.relayedRefs ==>
          Open(refs, refs.relayedRefs[twin]) && refs.relayedRefs[twin] in refs.down
          && refs.down[refs.relayedRefs[twin]] == twin)
    && (forall r :: Open(refs, r) && r in refs.down ==>
          refs.down[r] in refs.relayedRefs && refs.relayedRefs[refs.down[r]] == r)
    && (forall r :: r in refs.down ==> r in refs.origin && refs.down[r].id < NextId(ids, refs.down[r].conn))
    && refs.shut <= refs.origin.Keys
  }

  /** State waits only for holds an open relay serves. */
  ghost predicate SlotsOk(slots: set<Twin>, refs: Refs) { forall at :: at in slots ==> at in refs.served }

  /** A twin is released at most once, and not while its relay is open. */
  ghost predicate ReleasedOnce(released: multiset<Twin>, refs: Refs, ids: Ids) {
    && (forall twin: Twin :: released[twin] <= 1 && (released[twin] > 0 ==> twin.id < NextId(ids, twin.conn)))
    && (forall r :: Open(refs, r) && r in refs.down ==> released[refs.down[r]] == 0)
  }

  ghost predicate Inv(t: Table) {
    && Inverse(t.traffic, t.refs, t.ids) && SettlesOnce(t.traffic, t.refs) && RefsOk(t.refs, t.ids)
    && SlotsOk(t.slots, t.refs) && ReleasedOnce(t.released, t.refs, t.ids)
  }

  lemma FinishKeeps(c: Traffic, refs: Refs, ids: Ids, k: Call)
    requires Inverse(c, refs, ids) && SettlesOnce(c, refs) && k in c.forwarded
    ensures Inverse(Finish(c, k), refs, ids) && SettlesOnce(Finish(c, k), refs)
  {
    var next := Finish(c, k);
    assert ForwardedOk(c, refs, ids, k);
    forall key | key in next.calls ensures CallOk(next, refs, key) { assert CallOk(c, refs, key); }
    forall twin | twin in next.relayedCalls ensures TwinOk(next, twin) { assert TwinOk(c, twin); }
    forall l | l in next.forwarded ensures ForwardedOk(next, refs, ids, l) { assert ForwardedOk(c, refs, ids, l); }
  }

  lemma ForwardsKeeps(c: Traffic, refs: Refs, ids: Ids, k: Call, twin: Twin)
    requires Inverse(c, refs, ids) && SettlesOnce(c, refs) && k in c.waiting && c.waiting[k].0 in refs.down
    requires twin == Twin(refs.down[c.waiting[k].0].conn, NextId(ids, refs.down[c.waiting[k].0].conn))
    ensures Inverse(Forwards(c, k, twin), refs, ids[twin.conn := twin.id + 1]) &&
      SettlesOnce(Forwards(c, k, twin), refs)
  {
    var next := Forwards(c, k, twin);
    var later := ids[twin.conn := twin.id + 1];
    forall key | key in next.calls ensures CallOk(next, refs, key) {
      if key in c.calls { assert CallOk(c, refs, key); }
    }
    forall t | t in next.relayedCalls ensures TwinOk(next, t) { if t in c.relayedCalls { assert TwinOk(c, t); } }
    forall l | l in next.forwarded ensures ForwardedOk(next, refs, later, l) {
      if l in c.forwarded { assert ForwardedOk(c, refs, ids, l); }
    }
  }

  /** The relays change without a relay of a call closing. */
  lemma TrafficUnderRefs(c: Traffic, refs: Refs, ids: Ids, next: Refs, later: Ids)
    requires Inverse(c, refs, ids) && SettlesOnce(c, refs)
    requires forall r :: Open(refs, r) ==> Open(next, r)
    requires forall r :: r in refs.down ==> r in next.down && next.down[r] == refs.down[r]
    requires forall d: Conn :: NextId(ids, d) <= NextId(later, d)
    ensures Inverse(c, next, later) && SettlesOnce(c, next)
  {
    forall key | key in c.calls ensures CallOk(c, next, key) { assert CallOk(c, refs, key); }
    forall l | l in c.forwarded ensures ForwardedOk(c, next, later, l) { assert ForwardedOk(c, refs, ids, l); }
  }

  /** Only what waits or has settled without being forwarded changes. */
  lemma WaitingKeepsInverse(c: Traffic, refs: Refs, ids: Ids, next: Traffic)
    requires Inverse(c, refs, ids)
    requires next.calls == c.calls && next.relayedCalls == c.relayedCalls && next.forwarded == c.forwarded
    requires forall k :: k in c.forwarded ==> next.settled[k] == c.settled[k]
    ensures Inverse(next, refs, ids)
  {
    forall key | key in next.calls ensures CallOk(next, refs, key) { assert CallOk(c, refs, key); }
    forall twin | twin in next.relayedCalls ensures TwinOk(next, twin) { assert TwinOk(c, twin); }
    forall l | l in next.forwarded ensures ForwardedOk(next, refs, ids, l) { assert ForwardedOk(c, refs, ids, l); }
  }

  lemma WaitsOnce(c: Traffic, refs: Refs, k: Call, r: Relay, id: nat)
    requires SettlesOnce(c, refs) && k !in c.waiting && k !in c.forwarded && c.settled[k] == 0
    requires (r, id) !in c.calls && forall l :: l in c.waiting ==> c.waiting[l] != (r, id)
    ensures Open(refs, r) ==> SettlesOnce(c.(waiting := c.waiting[k := (r, id)]), refs)
    ensures SettlesOnce(c.(settled := c.settled + multiset{k}), refs)
  {
  }

  lemma CallArrivesKeeps(t: Table, k: Call, r: Relay, id: nat)
    requires Inv(t) && Enabled(t, CallArrives(k, r, id))
    ensures Inv(Step(t, CallArrives(k, r, id)))
  {
    hide RefsOk, SlotsOk, ReleasedOnce, Inverse, SettlesOnce;
    WaitsOnce(t.traffic, t.refs, k, r, id);
    WaitingKeepsInverse(t.traffic, t.refs, t.ids, Step(t, CallArrives(k, r, id)).traffic);
  }

  lemma AbortWaitingKeeps(t: Table, k: Call)
    requires Inv(t) && k in t.traffic.waiting
    ensures Inv(Step(t, AbortWaiting(k)))
  {
    hide RefsOk, SlotsOk, ReleasedOnce, Inverse;
    WaitingKeepsInverse(t.traffic, t.refs, t.ids, Step(t, AbortWaiting(k)).traffic);
  }

  /** Closing settles exactly the unsettled calls of the relay, and those waiting for its route. */
  lemma CloseSettles(c: Traffic, refs: Refs, ids: Ids, r: Relay, k: Call)
    requires Inverse(c, refs, ids) && SettlesOnce(c, refs)
    ensures SettleAll(c, r).settled[k] == c.settled[k]
      + (if k in CallsOf(c, r) then 1 else 0) + (if k in c.waiting && c.waiting[k].0 == r then 1 else 0)
    ensures k in CallsOf(c, r) <==> k in c.forwarded && c.forwarded[k].relay == r && c.settled[k] == 0
  {
    if k in c.forwarded { assert ForwardedOk(c, refs, ids, k); }
    forall key | key in c.calls ensures CallOk(c, refs, key) { }
  }

  lemma SettleAllKeeps(c: Traffic, refs: Refs, ids: Ids, r: Relay, next: Refs)
    requires Inverse(c, refs, ids) && SettlesOnce(c, refs)
    requires forall q :: q != r && Open(refs, q) ==> Open(next, q)
    requires next.down == refs.down
    ensures Inverse(SettleAll(c, r), next, ids) && SettlesOnce(SettleAll(c, r), next)
  {
    var after := SettleAll(c, r);
    forall key | key in after.calls ensures CallOk(after, next, key) { assert CallOk(c, refs, key); }
    forall twin | twin in after.relayedCalls ensures TwinOk(after, twin) { assert TwinOk(c, twin); }
    forall l | l in after.forwarded ensures ForwardedOk(after, next, ids, l) {
      assert ForwardedOk(c, refs, ids, l);
      CloseSettles(c, refs, ids, r, l);
    }
    forall l: Call ensures after.settled[l] <= 1 && (l in after.waiting ==> after.settled[l] == 0) {
      CloseSettles(c, refs, ids, r, l);
    }
  }

  lemma UnrefKeeps(refs: Refs, ids: Ids, r: Relay)
    requires RefsOk(refs, ids) && Open(refs, r)
    ensures RefsOk(Unref(refs, r), ids)
  {
  }

  lemma CloseKeeps(t: Table, r: Relay, releaseDown: bool, notify: bool)
    requires Inv(t)
    ensures Inv(Close(t, r, releaseDown, notify))
  {
    if Open(t.refs, r) {
      var next := Unref(t.refs, r);
      SettleAllKeeps(t.traffic, t.refs, t.ids, r, next);
      UnrefKeeps(t.refs, t.ids, r);
      hide Inverse, SettlesOnce, SettleAll;
    }
  }

  lemma ForwardKeepsRefs(refs: Refs, ids: Ids, r: Relay, twin: Twin)
    requires RefsOk(refs, ids) && Open(refs, r) && r !in refs.down && twin.id == NextId(ids, twin.conn)
    ensures RefsOk(refs.(down := refs.down[r := twin], relayedRefs := refs.relayedRefs[twin := r]),
      ids[twin.conn := twin.id + 1])
  {
  }

  lemma ForwardKeepsReleased(released: multiset<Twin>, refs: Refs, ids: Ids, r: Relay, twin: Twin)
    requires ReleasedOnce(released, refs, ids) && Open(refs, r) && r !in refs.down && twin.id == NextId(ids, twin.conn)
    ensures ReleasedOnce(released, refs.(down := refs.down[r := twin], relayedRefs := refs.relayedRefs[twin := r]),
      ids[twin.conn := twin.id + 1])
  {
  }

  lemma ForwardKeeps(t: Table, r: Relay, to: Conn)
    requires Inv(t) && Enabled(t, Forward(r, to))
    ensures Inv(Step(t, Forward(r, to)))
  {
    hide RefsOk, ReleasedOnce, Inverse, SettlesOnce;
    if r !in t.refs.shut {
      var next := Step(t, Forward(r, to));
      ForwardKeepsRefs(t.refs, t.ids, r, Twin(to, NextId(t.ids, to)));
      ForwardKeepsReleased(t.released, t.refs, t.ids, r, Twin(to, NextId(t.ids, to)));
      TrafficUnderRefs(t.traffic, t.refs, t.ids, next.refs, next.ids);
    }
  }

  lemma HoldArrivesKeeps(t: Table, r: Relay, at: Twin)
    requires Inv(t) && Enabled(t, HoldArrives(r, at))
    ensures Inv(Step(t, HoldArrives(r, at)))
  {
    hide Inverse, SettlesOnce;
    var next := Step(t, HoldArrives(r, at));
    TrafficUnderRefs(t.traffic, t.refs, t.ids, next.refs, next.ids);
  }

  lemma ContinueKeeps(t: Table, k: Call)
    requires Inv(t) && Enabled(t, Continue(k))
    ensures Inv(Step(t, Continue(k)))
  {
    hide Inverse, SettlesOnce, Forwards;
    var d := t.refs.down[t.traffic.waiting[k].0].conn;
    ForwardsKeeps(t.traffic, t.refs, t.ids, k, Twin(d, NextId(t.ids, d)));
  }

  lemma FinishingKeeps(t: Table, k: Call)
    requires Inv(t) && k in t.traffic.forwarded
    ensures Inv(t.(traffic := Finish(t.traffic, k)))
  {
    hide Inverse, SettlesOnce, Finish, RefsOk, SlotsOk, ReleasedOnce;
    FinishKeeps(t.traffic, t.refs, t.ids, k);
  }

  lemma StepKeeps(t: Table, e: Event)
    requires Inv(t) && Enabled(t, e)
    ensures Inv(Step(t, e))
  {
    hide Inverse, SettlesOnce, Finish, ReleasedOnce, Close;
    match e {
      case HoldArrives(r, at) => HoldArrivesKeeps(t, r, at);
      case Forward(r, to) => ForwardKeeps(t, r, to);
      case CallArrives(k, r, id) => CallArrivesKeeps(t, k, r, id);
      case Continue(k) => ContinueKeeps(t, k);
      case AbortWaiting(k) => AbortWaitingKeeps(t, k);
      case CloseRelay(r, releaseDown, notify) => CloseKeeps(t, r, releaseDown, notify);
      case ResultArrives(twin) =>
        if twin in t.traffic.relayedCalls && t.traffic.relayedCalls[twin] in t.traffic.forwarded {
          FinishingKeeps(t, t.traffic.relayedCalls[twin]);
        }
      case CancelCall(k) => FinishingKeeps(t, k);
      case StateWaits(r) =>
    }
  }

  lemma {:induction false} RunKeeps(events: seq<Event>)
    ensures Inv(Run(events))
  {
    if events != [] {
      RunKeeps(events[..|events| - 1]);
      var before := Run(events[..|events| - 1]);
      var e := events[|events| - 1];
      if Enabled(before, e) { StepKeeps(before, e); }
    }
  }

  // ---------------------------------------------------------------------------------------------
  // The theorems

  /** The maps of a relay and of its downstream connection are mutually inverse on the calls in flight. */
  lemma CallMapsAreInverse(events: seq<Event>, r: Relay, id: nat, twin: Twin, k: Call)
    requires k in Run(events).traffic.forwarded && Run(events).traffic.forwarded[k] == Forwarded(r, id, twin)
    ensures var c := Run(events).traffic;
      ((r, id) in c.calls && c.calls[(r, id)] == k) <==> (twin in c.relayedCalls && c.relayedCalls[twin] == k)
    ensures var c := Run(events).traffic;
      ((r, id) in c.calls && c.calls[(r, id)] == k) <==> c.settled[k] == 0
    ensures Run(events).traffic.settled[k] <= 1
  {
    RunKeeps(events);
    var t := Run(events);
    assert ForwardedOk(t.traffic, t.refs, t.ids, k);
  }

  /** Nothing of relay `r` is left: no map entry, no waiting slot, no call in flight or waiting. */
  ghost predicate Gone(t: Table, r: Relay) {
    && (forall at :: at in t.refs.served ==> t.refs.served[at] != r)
    && (forall twin :: twin in t.refs.relayedRefs ==> t.refs.relayedRefs[twin] != r)
    && (forall key :: key in t.traffic.calls ==> key.0 != r)
    && (forall twin :: twin in t.traffic.relayedCalls ==>
          t.traffic.relayedCalls[twin] in t.traffic.forwarded &&
              t.traffic.forwarded[t.traffic.relayedCalls[twin]].relay != r)
    && (forall k :: k in t.traffic.waiting ==> t.traffic.waiting[k].0 != r)
    && (r in t.refs.origin && t.refs.origin[r] in t.slots ==> t.refs.origin[r] in t.refs.served)
  }

  /**
    * A closed relay leaves nothing behind, at whatever stage it closed and whatever happens after, settled
    * every call that went through it, and was released downstream at most once.
    */
  lemma ClosedRelaysLeaveNothing(events: seq<Event>, r: Relay)
    requires r in Run(events).refs.shut
    ensures Gone(Run(events), r)
    ensures forall k :: k in Run(events).traffic.forwarded && Run(events).traffic.forwarded[k].relay == r ==>
      Run(events).traffic.settled[k] == 1
    ensures r in Run(events).refs.down ==> Run(events).released[Run(events).refs.down[r]] <= 1
  {
    RunKeeps(events);
    var t := Run(events);
    forall key | key in t.traffic.calls ensures key.0 != r { assert CallOk(t.traffic, t.refs, key); }
    forall k | k in t.traffic.forwarded && t.traffic.forwarded[k].relay == r ensures t.traffic.settled[k] == 1 {
      assert ForwardedOk(t.traffic, t.refs, t.ids, k);
    }
    forall twin | twin in t.traffic.relayedCalls
      ensures t.traffic.relayedCalls[twin] in t.traffic.forwarded &&
        t.traffic.forwarded[t.traffic.relayedCalls[twin]].relay != r
    {
      assert TwinOk(t.traffic, twin);
      assert ForwardedOk(t.traffic, t.refs, t.ids, t.traffic.relayedCalls[twin]);
    }
  }

  /** Every relay over link `d` is closed. */
  ghost predicate AllShut(refs: Refs, d: Conn) {
    forall r :: r in refs.down && refs.down[r].conn == d ==> r in refs.shut
  }

  /** A connection all of whose relays closed has no relayed hold and no relayed call left. */
  lemma ClosedConnectionIsEmpty(events: seq<Event>, d: Conn)
    requires AllShut(Run(events).refs, d)
    ensures forall twin :: twin in Run(events).refs.relayedRefs ==> twin.conn != d
    ensures forall twin :: twin in Run(events).traffic.relayedCalls ==> twin.conn != d
  {
    RunKeeps(events);
    NoneLeftOver(Run(events), d);
  }

  lemma NoneLeftOver(t: Table, d: Conn)
    requires Inv(t) && AllShut(t.refs, d)
    ensures forall twin :: twin in t.refs.relayedRefs ==> twin.conn != d
    ensures forall twin :: twin in t.traffic.relayedCalls ==> twin.conn != d
  {
    hide Inv;
    forall twin | twin in t.traffic.relayedCalls ensures twin.conn != d {
      var r := CallIsLive(t, twin);
      assert t.refs.down[r].conn == d ==> r in t.refs.shut;
    }
    forall twin | twin in t.refs.relayedRefs ensures twin.conn != d {
      var r := HoldIsLive(t, twin);
      assert t.refs.down[r].conn == d ==> r in t.refs.shut;
    }
  }

  /** A relayed call belongs to an open relay over its link. */
  lemma CallIsLive(t: Table, twin: Twin) returns (r: Relay)
    requires Inv(t) && twin in t.traffic.relayedCalls
    ensures r in t.refs.down && r !in t.refs.shut && t.refs.down[r].conn == twin.conn
  {
    assert TwinOk(t.traffic, twin);
    assert ForwardedOk(t.traffic, t.refs, t.ids, t.traffic.relayedCalls[twin]);
    var f := t.traffic.forwarded[t.traffic.relayedCalls[twin]];
    assert t.traffic.settled[t.traffic.relayedCalls[twin]] == 0;
    assert CallOk(t.traffic, t.refs, (f.relay, f.originId));
    r := f.relay;
  }

  /** So does a relayed hold. */
  lemma HoldIsLive(t: Table, twin: Twin) returns (r: Relay)
    requires Inv(t) && twin in t.refs.relayedRefs
    ensures r in t.refs.down && r !in t.refs.shut && t.refs.down[r].conn == twin.conn
  {
    r := t.refs.relayedRefs[twin];
  }
}

/**
  * The queue every notification goes through, and the fan-out of a source to its subscribers. Listeners
  * run between the steps and may do anything themselves: write, subscribe, unsubscribe, hold publications.
  */
module Publications {

  import opened Streams

  type Source = nat
  type Listener(==, !new)
  type Json(==, !new)

  /** The delivery of one revision to the listeners subscribed when it was adopted, and not called yet. */
  datatype Task = Task(source: Source, revision: nat, to: set<Listener>)

  /** A call of a listener: with the current value as it subscribes, or with an event. */
  datatype Call = Call(source: Source, listener: Listener, revision: nat, snapshot: bool)

  /**
    * `revisions`: the values each source adopted. `running` is the task being delivered. `calls` are the
    * calls made so far, in the order they began.
    */
  datatype Bus = Bus(
    revisions: map<Source, seq<Json>>,
    listeners: set<(Source, Listener)>,
    queue: seq<Task>,
    running: Option<Task>,
    held: nat,
    calls: seq<Call>
  )

  datatype Event =
    | Adopt(source: Source, value: Json)
    | Subscribe(source: Source, listener: Listener)
    | Unsubscribe(source: Source, listener: Listener)
    | Hold
    | Release
    | StartTask
    | Deliver(listener: Listener)
    | EndTask

  /** A bus over sources that have a first value. */
  ghost predicate Initial(b: Bus) {
    && (forall s :: s in b.revisions ==> |b.revisions[s]| == 1)
    && b.listeners == {} && b.queue == [] && b.running.None? && b.held == 0 && b.calls == []
  }

  predicate Enabled(b: Bus, e: Event) {
    match e
    case Adopt(s, _) => s in b.revisions
    case Subscribe(s, _) => s in b.revisions && b.revisions[s] != []
    case Release => b.held > 0
    // `drain`: nothing is delivered while publications are held.
    case StartTask => b.running.None? && b.queue != [] && b.held == 0
    case Deliver(l) => b.running.Some? && l in b.running.value.to && b.held == 0
    case EndTask => b.running.Some? && b.running.value.to == {}
    case _ => true
  }

  function Listening(b: Bus, s: Source): set<Listener> { set x | x in b.listeners && x.0 == s :: x.1 }

  function Step(b: Bus, e: Event): Bus
    requires Enabled(b, e)
  {
    match e
    case Adopt(s, v) =>
      b.(revisions := b.revisions[s := b.revisions[s] + [v]],
         queue := b.queue + [Task(s, |b.revisions[s]|, Listening(b, s))])
    case Subscribe(s, l) =>
      b.(listeners := b.listeners + {(s, l)}, calls := b.calls + [Call(s, l, |b.revisions[s]| - 1, true)])
    case Unsubscribe(s, l) => b.(listeners := b.listeners - {(s, l)})
    case Hold => b.(held := b.held + 1)
    case Release => b.(held := b.held - 1)
    case StartTask => b.(running := Some(b.queue[0]), queue := b.queue[1..])
    case Deliver(l) =>
      var task := b.running.value;
      var rest := b.(running := Some(task.(to := task.to - {l})));
      // A listener absent now gets nothing.
      if (task.source, l) in b.listeners
      then rest.(calls := b.calls + [Call(task.source, l, task.revision, false)])
      else rest
    case EndTask => b.(running := None)
  }

  /** A run skips the events that cannot happen where it is. */
  function Run(start: Bus, events: seq<Event>): Bus {
    if events == [] then start
    else
      var before := Run(start, events[..|events| - 1]);
      var e := events[|events| - 1];
      if Enabled(before, e) then Step(before, e) else before
  }

  // ---------------------------------------------------------------------------------------------
  // What one subscription sees

  /** The revisions `l` was called with since it last subscribed to `s`. */
  function Seen(calls: seq<Call>, s: Source, l: Listener): seq<nat> {
    if calls == [] then []
    else
      var c := calls[|calls| - 1];
      if c.source != s || c.listener != l then Seen(calls[..|calls| - 1], s, l)
      else if c.snapshot then [c.revision]
      else Seen(calls[..|calls| - 1], s, l) + [c.revision]
  }

  function Awaited(t: Task, s: Source, l: Listener): seq<nat> {
    if t.source == s && l in t.to then [t.revision] else []
  }

  function Queued(queue: seq<Task>, s: Source, l: Listener): seq<nat> {
    if queue == [] then [] else Queued(queue[..|queue| - 1], s, l) + Awaited(queue[|queue| - 1], s, l)
  }

  /** The revisions on their way to `l`. */
  function Awaiting(b: Bus, s: Source, l: Listener): seq<nat> {
    (if b.running.Some? then Awaited(b.running.value, s, l) else []) + Queued(b.queue, s, l)
  }

  /** `from`, `from + 1`, up to `to`. */
  predicate CountsUp(r: seq<nat>, to: nat) {
    r != [] && r[|r| - 1] == to && forall i :: 0 <= i < |r| - 1 ==> r[i + 1] == r[i] + 1
  }

  /**
    * What `l` saw since it subscribed and what is on its way to it are the snapshot's revision and then
    * every later one, once and in order, up to the current one.
    */
  ghost predicate Ordered(b: Bus, s: Source, l: Listener) {
    s in b.revisions && b.revisions[s] != []
    && Seen(b.calls, s, l) != []
    && CountsUp(Seen(b.calls, s, l) + Awaiting(b, s, l), |b.revisions[s]| - 1)
  }

  /** Nothing on its way is newer than what its source adopted. */
  ghost predicate Past(b: Bus) {
    && (b.running.Some? ==> InPast(b, b.running.value))
    && forall i :: 0 <= i < |b.queue| ==> InPast(b, b.queue[i])
  }

  predicate InPast(b: Bus, t: Task) { t.source in b.revisions && t.revision < |b.revisions[t.source]| }

  lemma SeenAppend(calls: seq<Call>, c: Call, s: Source, l: Listener)
    ensures Seen(calls + [c], s, l) ==
      if c.source != s || c.listener != l then Seen(calls, s, l)
      else if c.snapshot then [c.revision] else Seen(calls, s, l) + [c.revision]
  {
    assert (calls + [c])[..|calls|] == calls;
  }

  lemma QueuedAppend(queue: seq<Task>, t: Task, s: Source, l: Listener)
    ensures Queued(queue + [t], s, l) == Queued(queue, s, l) + Awaited(t, s, l)
  {
    assert (queue + [t])[..|queue|] == queue;
  }

  lemma {:induction false} QueuedHead(queue: seq<Task>, s: Source, l: Listener)
    requires queue != []
    ensures Queued(queue, s, l) == Awaited(queue[0], s, l) + Queued(queue[1..], s, l)
  {
    if |queue| == 1 {
      assert queue[..0] == [] && queue[1..] == [];
    } else {
      QueuedHead(queue[..|queue| - 1], s, l);
      assert queue[1..][..|queue| - 2] == queue[..|queue| - 1][1..];
    }
  }

  lemma ListeningHas(b: Bus, s: Source, l: Listener)
    ensures l in Listening(b, s) <==> (s, l) in b.listeners
  {
    if (s, l) in b.listeners { assert (s, l).0 == s && (s, l).1 == l; }
  }

  lemma CountsUpAppend(r: seq<nat>, to: nat)
    requires CountsUp(r, to)
    ensures CountsUp(r + [to + 1], to + 1)
  {
  }

  lemma AdoptKeepsOrder(b: Bus, at: Source, v: Json, s: Source, l: Listener)
    requires Enabled(b, Adopt(at, v)) && (s, l) in b.listeners && Ordered(b, s, l)
    ensures Ordered(Step(b, Adopt(at, v)), s, l)
  {
    hide CountsUp, Queued, Seen;
    var next := Step(b, Adopt(at, v));
    var seen, awaiting := Seen(b.calls, s, l), Awaiting(b, s, l);
    ListeningHas(b, at, l);
    QueuedAppend(b.queue, Task(at, |b.revisions[at]|, Listening(b, at)), s, l);
    if at == s {
      CountsUpAppend(seen + awaiting, |b.revisions[s]| - 1);
      assert seen + Awaiting(next, s, l) == seen + awaiting + [|b.revisions[s]|];
    } else {
      assert Awaiting(next, s, l) == awaiting;
    }
  }

  lemma DeliverKeepsOrder(b: Bus, other: Listener, s: Source, l: Listener)
    requires Enabled(b, Deliver(other)) && (s, l) in b.listeners && Ordered(b, s, l)
    ensures Ordered(Step(b, Deliver(other)), s, l)
  {
    hide CountsUp, Queued, Seen;
    var next := Step(b, Deliver(other));
    var seen, awaiting := Seen(b.calls, s, l), Awaiting(b, s, l);
    var task := b.running.value;
    SeenAppend(b.calls, Call(task.source, other, task.revision, false), s, l);
    if task.source == s && other == l {
      assert awaiting == [task.revision] + Queued(b.queue, s, l);
      assert seen + [task.revision] + Queued(b.queue, s, l) == seen + awaiting;
      assert Awaiting(next, s, l) == Queued(b.queue, s, l);
    } else {
      assert Awaiting(next, s, l) == awaiting;
    }
  }

  /** Every step keeps the order of a subscription that stays. */
  lemma StepKeepsOrder(b: Bus, e: Event, s: Source, l: Listener)
    requires Enabled(b, e) && (s, l) in b.listeners && Ordered(b, s, l)
    requires e != Unsubscribe(s, l) && e != Subscribe(s, l)
    ensures Ordered(Step(b, e), s, l) && (s, l) in Step(b, e).listeners
  {
    hide CountsUp, Queued, Seen;
    match e {
      case Adopt(at, v) => AdoptKeepsOrder(b, at, v, s, l);
      case Deliver(other) => DeliverKeepsOrder(b, other, s, l);
      case Subscribe(at, other) => SeenAppend(b.calls, Call(at, other, |b.revisions[at]| - 1, true), s, l);
      case StartTask =>
        QueuedHead(b.queue, s, l);
        assert Awaiting(Step(b, e), s, l) == Awaiting(b, s, l);
      case EndTask => assert Awaiting(Step(b, e), s, l) == Awaiting(b, s, l);
      case _ =>
    }
  }

  /**
    * Subscribing puts a subscription in order exactly when nothing is on its way to that listener already.
    * (The listener of an earlier subscription, cancelled with deliveries pending, gets them after its new
    * snapshot.)
    */
  lemma SubscribedInOrder(b: Bus, s: Source, l: Listener)
    requires Enabled(b, Subscribe(s, l)) && Past(b)
    ensures Ordered(Step(b, Subscribe(s, l)), s, l) <==> Awaiting(b, s, l) == []
  {
    var next := Step(b, Subscribe(s, l));
    SeenAppend(b.calls, Call(s, l, |b.revisions[s]| - 1, true), s, l);
    assert Awaiting(next, s, l) == Awaiting(b, s, l);
    var all := Seen(next.calls, s, l) + Awaiting(b, s, l);
    if Awaiting(b, s, l) != [] {
      AwaitedIsPast(b, s, l);
      var r := Awaiting(b, s, l)[0];
      assert r in Awaiting(b, s, l) && all[0] == |b.revisions[s]| - 1 && all[0 + 1] == r;
    }
  }

  lemma AwaitedIsPast(b: Bus, s: Source, l: Listener)
    requires Past(b)
    ensures forall r :: r in Awaiting(b, s, l) ==> s in b.revisions && r < |b.revisions[s]|
  {
    QueuedIsPast(b, b.queue, s, l);
  }

  lemma {:induction false} QueuedIsPast(b: Bus, queue: seq<Task>, s: Source, l: Listener)
    requires forall i :: 0 <= i < |queue| ==> InPast(b, queue[i])
    ensures forall r :: r in Queued(queue, s, l) ==> s in b.revisions && r < |b.revisions[s]|
  {
    if queue != [] { QueuedIsPast(b, queue[..|queue| - 1], s, l); }
  }

  lemma StepKeepsPast(b: Bus, e: Event)
    requires Past(b) && Enabled(b, e)
    ensures Past(Step(b, e))
  {
    var next := Step(b, e);
    forall i | 0 <= i < |next.queue| ensures InPast(next, next.queue[i]) {
      if e.StartTask? {
        assert InPast(b, b.queue[i + 1]);
      } else if i < |b.queue| {
        assert InPast(b, b.queue[i]);
      }
    }
  }

  lemma {:induction false} RunKeepsPast(start: Bus, events: seq<Event>)
    requires Initial(start)
    ensures Past(Run(start, events))
  {
    if events != [] {
      RunKeepsPast(start, events[..|events| - 1]);
      var before := Run(start, events[..|events| - 1]);
      var e := events[|events| - 1];
      if Enabled(before, e) { StepKeepsPast(before, e); }
    }
  }

  /** `later` leaves the subscription of `l` to `s` alone. */
  predicate Stays(later: seq<Event>, s: Source, l: Listener) {
    forall i :: 0 <= i < |later| ==> later[i] != Unsubscribe(s, l) && later[i] != Subscribe(s, l)
  }

  /**
    * A listener that subscribes with nothing on its way to it gets its snapshot and then every later
    * revision exactly once, in adoption order, whatever listeners do meanwhile.
    */
  lemma {:induction false} SubscribersSeeAdoptionOrder(start: Bus, events: seq<Event>, s: Source, l: Listener,
      later: seq<Event>)
    requires Initial(start) && Enabled(Run(start, events), Subscribe(s, l))
    requires Awaiting(Run(start, events), s, l) == [] && Stays(later, s, l)
    ensures var end := Run(Step(Run(start, events), Subscribe(s, l)), later);
      (s, l) in end.listeners && Ordered(end, s, l)
  {
    var subscribed := Step(Run(start, events), Subscribe(s, l));
    if later == [] {
      RunKeepsPast(start, events);
      SubscribedInOrder(Run(start, events), s, l);
    } else {
      var init := later[..|later| - 1];
      SubscribersSeeAdoptionOrder(start, events, s, l, init);
      var before := Run(subscribed, init);
      var e := later[|later| - 1];
      if Enabled(before, e) { StepKeepsOrder(before, e, s, l); }
    }
  }

  /** A listener that unsubscribes and subscribes again while an event is on its way to it. */
  function Resubscribing(l: Listener, v: Json): seq<Event> {
    [Subscribe(0, l), Adopt(0, v), Unsubscribe(0, l), Subscribe(0, l)]
  }

  lemma RunPush(start: Bus, events: seq<Event>, n: nat)
    requires n < |events|
    ensures var b := Run(start, events[..n]);
      Run(start, events[..n + 1]) == if Enabled(b, events[n]) then Step(b, events[n]) else b
  {
    assert events[..n + 1][..n] == events[..n];
  }

  /** It has its new snapshot, of revision 1, and gets the event of revision 1 after it. */
  lemma ResubscribedOutOfOrder(first: Json, l: Listener, v: Json)
    ensures var start := Bus(map[0 := [first]], {}, [], None, 0, []);
      var b := Run(start, Resubscribing(l, v));
      && Initial(start) && (0, l) in b.listeners
      && Seen(b.calls, 0, l) == [1] && Awaiting(b, 0, l) == [1] && !Ordered(b, 0, l)
  {
    hide Step, Enabled, Run, Seen, Queued;
    var start := Bus(map[0 := [first]], {}, [], None, 0, []);
    var events := Resubscribing(l, v);
    assert events[..0] == [] && events[..4] == events && Run(start, []) == start by { NoEvents(start); }
    RunPush(start, events, 0);
    RunPush(start, events, 1);
    RunPush(start, events, 2);
    RunPush(start, events, 3);
    var snapshot := Call(0, l, 0, true);
    Subscribes(start, l, first);
    var one := start.(listeners := {(0, l)}, calls := [snapshot]);
    Adopts(one, l, first, v);
    var two := one.(revisions := map[0 := [first, v]], queue := [Task(0, 1, {l})]);
    Resubscribes(two, l, first, v);
  }

  lemma NoEvents(start: Bus)
    ensures Run(start, []) == start
  {
  }

  lemma Subscribes(b: Bus, l: Listener, first: Json)
    requires b.revisions == map[0 := [first]] && b.listeners == {} && b.calls == []
    ensures Enabled(b, Subscribe(0, l))
    ensures Step(b, Subscribe(0, l)) == b.(listeners := {(0, l)}, calls := [Call(0, l, 0, true)])
  {
    assert [] + [Call(0, l, 0, true)] == [Call(0, l, 0, true)] && {} + {(0, l)} == {(0, l)};
  }

  lemma Adopts(b: Bus, l: Listener, first: Json, v: Json)
    requires b.revisions == map[0 := [first]] && b.listeners == {(0, l)} && b.queue == []
    ensures Enabled(b, Adopt(0, v))
    ensures Step(b, Adopt(0, v)) == b.(revisions := map[0 := [first, v]], queue := [Task(0, 1, {l})])
  {
    ListeningHas(b, 0, l);
    assert Listening(b, 0) == {l};
    assert [first] + [v] == [first, v] && [] + [Task(0, 1, {l})] == [Task(0, 1, {l})];
  }

  lemma Resubscribes(b: Bus, l: Listener, first: Json, v: Json)
    requires b.revisions == map[0 := [first, v]] && b.listeners == {(0, l)} && b.running.None?
    requires b.queue == [Task(0, 1, {l})] && b.calls == [Call(0, l, 0, true)]
    ensures Enabled(b, Unsubscribe(0, l)) && Enabled(Step(b, Unsubscribe(0, l)), Subscribe(0, l))
    ensures var again := Step(Step(b, Unsubscribe(0, l)), Subscribe(0, l));
      && (0, l) in again.listeners
      && Seen(again.calls, 0, l) == [1] && Awaiting(again, 0, l) == [1] && !Ordered(again, 0, l)
  {
    SeenAppend(b.calls, Call(0, l, 1, true), 0, l);
    QueuedAppend([], b.queue[0], 0, l);
    assert [] + [b.queue[0]] == b.queue && Queued([], 0, l) == [];
    var r: seq<nat> := [1] + [1];
    assert r[0] == 1 && r[1] == 1 && !CountsUp(r, 1);
  }

  /** Once nothing is on its way, the last thing the subscriber saw is the current revision. */
  lemma DrainedSubscriberIsCurrent(b: Bus, s: Source, l: Listener)
    requires Ordered(b, s, l) && b.queue == [] && b.running.None?
    ensures var seen := Seen(b.calls, s, l); seen[|seen| - 1] == |b.revisions[s]| - 1
  {
    assert Seen(b.calls, s, l) + Awaiting(b, s, l) == Seen(b.calls, s, l);
  }

  /** What a subscriber makes of the events after its snapshot, each op taking its copy on. */
  function Replay<Op>(apply: (Json, Op) -> Json, diff: (Json, Json) -> Op, revisions: seq<Json>, seen: seq<nat>): Json
    requires seen != [] && forall i :: 0 <= i < |seen| ==> seen[i] < |revisions|
  {
    var last := seen[|seen| - 1];
    if |seen| == 1 || last == 0 then revisions[last]
    else apply(Replay(apply, diff, revisions, seen[..|seen| - 1]), diff(revisions[last - 1], revisions[last]))
  }

  lemma CountsUpPrefix(seen: seq<nat>, to: nat)
    requires CountsUp(seen, to) && |seen| > 1
    ensures to > 0 && CountsUp(seen[..|seen| - 1], to - 1)
  {
    assert seen[|seen| - 2 + 1] == seen[|seen| - 2] + 1;
  }

  /** Each event's ops take the previous value to the next, so the copy is always the revision last seen. */
  lemma {:induction false} ReplayIsLastSeen<Op>(apply: (Json, Op) -> Json, diff: (Json, Json) -> Op,
      revisions: seq<Json>, seen: seq<nat>, to: nat)
    requires forall a: Json, b: Json :: apply(a, diff(a, b)) == b
    requires CountsUp(seen, to) && to < |revisions|
    ensures forall i :: 0 <= i < |seen| ==> seen[i] <= to
    ensures Replay(apply, diff, revisions, seen) == revisions[to]
  {
    if |seen| > 1 {
      CountsUpPrefix(seen, to);
      ReplayIsLastSeen(apply, diff, revisions, seen[..|seen| - 1], to - 1);
      assert seen == seen[..|seen| - 1] + [to];
    }
  }
}

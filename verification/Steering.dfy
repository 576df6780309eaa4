/**
  * Where a steered message is while the agent runs: in the queue, handed to the model as a native input,
  * pending for the next turn, or in the transcript. Runs here do not abort, throw, remove or clear.
  */
module Steering {

  import opened Streams

  type Message(==, !new)

  datatype Mode = All | OneAtATime

  /** What waits for the next turn: steered messages or follow-ups. */
  datatype Item = Steered(message: Message) | FollowUp(message: Message)

  /**
    * `native`: the inputs taken for the open response and not confirmed, in issue order; while `converting`, the
    * last one is not given to the response yet. `stale`: inputs whose conversion is still under way though their
    * response closed. `history`: every message steered so far. `doubled`: messages put back a second time.
    */
  datatype Agent = Agent(
    mode: Mode,
    queue: seq<Message>,
    native: seq<seq<Message>>,
    pending: seq<Item>,
    transcript: seq<Item>,
    responding: bool,
    converting: bool,
    stale: seq<seq<Message>>,
    history: seq<Message>,
    doubled: seq<Message>
  )

  function Start(mode: Mode): Agent { Agent(mode, [], [], [], [], false, false, [], [], []) }

  /** `PendingMessageQueue.peek`. */
  function Peek(mode: Mode, queue: seq<Message>): seq<Message> {
    if mode == All || queue == [] then queue else queue[..1]
  }

  function AsSteered(messages: seq<Message>): seq<Item> {
    seq(|messages|, i requires 0 <= i < |messages| => Steered(messages[i]))
  }

  function Flat(native: seq<seq<Message>>): seq<Message> {
    if native == [] then [] else Flat(native[..|native| - 1]) + native[|native| - 1]
  }

  datatype Event =
    | Steer(message: Message)
    | Poll
    | PollFollowUps(messages: seq<Message>)
    | BeginTurn
    | Continue
    | OpenResponse
    | TakeInput
    | Converted(ok: bool)
    | Confirm(i: nat)
    | CloseResponse
    | ConvertedLate(i: nat, ok: bool)

  predicate Enabled(a: Agent, e: Event) {
    match e
    case Steer(_) => true
    // The loop polls only with nothing pending, and no response is open then.
    case Poll => a.pending == [] && !a.responding
    case PollFollowUps(_) => a.pending == [] && !a.responding
    case BeginTurn => !a.responding
    case OpenResponse => a.pending == [] && !a.responding
    // A run that ended on an assistant message starts again from the queue.
    case Continue => a.pending == [] && !a.responding
    // One input is taken at a time; only one that was given to the response is confirmed.
    case TakeInput => a.responding && !a.converting
    case Converted(_) => a.converting && a.native != []
    case Confirm(i) => a.responding && i < |a.native| && (a.converting ==> i < |a.native| - 1)
    case CloseResponse => a.responding
    case ConvertedLate(i, _) => i < |a.stale|
  }

  function Step(a: Agent, e: Event): Agent
    requires Enabled(a, e)
  {
    match e
    case Steer(m) => a.(queue := a.queue + [m], history := a.history + [m])
    case Poll =>
      var drained := Peek(a.mode, a.queue);
      a.(queue := a.queue[|drained|..], pending := AsSteered(drained))
    case PollFollowUps(messages) =>
      a.(pending := seq(|messages|, i requires 0 <= i < |messages| => FollowUp(messages[i])))
    case BeginTurn => a.(transcript := a.transcript + a.pending, pending := [])
    case OpenResponse => a.(responding := true)
    case Continue =>
      var drained := Peek(a.mode, a.queue);
      a.(queue := a.queue[|drained|..], transcript := a.transcript + AsSteered(drained))
    case TakeInput =>
      var drained := Peek(a.mode, a.queue);
      if drained == [] then a else a.(queue := a.queue[|drained|..], native := a.native + [drained], converting := true)
    case Converted(ok) =>
      // Messages that cannot be given natively go back to the front of the queue.
      if ok then a.(converting := false)
      else
        var last := |a.native| - 1;
        a.(converting := false, native := a.native[..last], queue := a.native[last] + a.queue)
    case Confirm(i) =>
      a.(native := a.native[..i] + a.native[i + 1..], transcript := a.transcript + AsSteered(a.native[i]))
    case CloseResponse =>
      a.(responding := false, converting := false, native := [], queue := Flat(a.native) + a.queue,
         stale := if a.converting && a.native != [] then a.stale + [a.native[|a.native| - 1]] else a.stale)
    case ConvertedLate(i, ok) =>
      // The messages went back when the response closed; refused, they go back again.
      var rest := a.(stale := a.stale[..i] + a.stale[i + 1..]);
      if ok then rest else rest.(queue := a.stale[i] + a.queue, doubled := a.doubled + a.stale[i])
  }

  function Run(mode: Mode, events: seq<Event>): Agent {
    if events == [] then Start(mode)
    else
      var before := Run(mode, events[..|events| - 1]);
      var e := events[|events| - 1];
      if Enabled(before, e) then Step(before, e) else before
  }

  // ---------------------------------------------------------------------------------------------

  /** The steered messages of a list, in order. */
  function SteeredOf(items: seq<Item>): seq<Message> {
    if items == [] then []
    else SteeredOf(items[..|items| - 1]) + if items[|items| - 1].Steered? then [items[|items| - 1].message] else []
  }

  /** Transcript, native inputs, pending and queue, one after the other. */
  function Everywhere(a: Agent): seq<Message> {
    SteeredOf(a.transcript) + Flat(a.native) + SteeredOf(a.pending) + a.queue
  }

  predicate Phased(a: Agent) {
    && (a.responding ==> a.pending == [])
    && (!a.responding ==> a.native == [] && !a.converting)
    && (forall i :: 0 <= i < |a.stale| ==> a.stale[i] != [])
    && forall i :: 0 <= i < |a.native| ==> a.native[i] != []
  }

  lemma {:induction false} SteeredConcat(a: seq<Item>, b: seq<Item>)
    ensures SteeredOf(a + b) == SteeredOf(a) + SteeredOf(b)
  {
    if b == [] {
      assert a + b == a;
    } else {
      SteeredConcat(a, b[..|b| - 1]);
      assert (a + b)[..|a + b| - 1] == a + b[..|b| - 1];
    }
  }

  lemma {:induction false} SteeredOfSteered(messages: seq<Message>)
    ensures SteeredOf(AsSteered(messages)) == messages
  {
    if messages != [] {
      SteeredOfSteered(messages[..|messages| - 1]);
      assert AsSteered(messages)[..|messages| - 1] == AsSteered(messages[..|messages| - 1]);
    }
  }

  lemma {:induction false} NoSteeredFollowUps(items: seq<Item>)
    requires forall i :: 0 <= i < |items| ==> items[i].FollowUp?
    ensures SteeredOf(items) == []
  {
    if items != [] { NoSteeredFollowUps(items[..|items| - 1]); }
  }

  lemma FlatAppend(native: seq<seq<Message>>, m: seq<Message>)
    ensures Flat(native + [m]) == Flat(native) + m
  {
    assert (native + [m])[..|native|] == native;
  }

  lemma {:induction false} FlatConcat(a: seq<seq<Message>>, b: seq<seq<Message>>)
    ensures Flat(a + b) == Flat(a) + Flat(b)
  {
    if b == [] {
      assert a + b == a;
    } else {
      FlatConcat(a, b[..|b| - 1]);
      assert (a + b)[..|a + b| - 1] == a + b[..|b| - 1];
    }
  }

  lemma FlatAround(before: seq<seq<Message>>, m: seq<Message>, after: seq<seq<Message>>)
    ensures Flat(before + [m] + after) == Flat(before) + m + Flat(after)
    ensures Flat(before + after) == Flat(before) + Flat(after)
  {
    hide Flat;
    FlatConcat(before + [m], after);
    FlatAppend(before, m);
    FlatConcat(before, after);
  }

  /** Taking the inputs apart at `i`. */
  lemma FlatAt(native: seq<seq<Message>>, i: nat)
    requires i < |native|
    ensures Flat(native) == Flat(native[..i]) + native[i] + Flat(native[i + 1..])
    ensures Flat(native[..i] + native[i + 1..]) == Flat(native[..i]) + Flat(native[i + 1..])
  {
    hide Flat;
    FlatAround(native[..i], native[i], native[i + 1..]);
    SplitAt(native, i);
  }

  lemma SplitAt<T>(s: seq<T>, i: nat)
    requires i < |s|
    ensures s[..i] + [s[i]] + s[i + 1..] == s
  {
  }

  lemma StepKeepsPhases(a: Agent, e: Event)
    requires Phased(a) && Enabled(a, e)
    ensures Phased(Step(a, e))
  {
  }

  /** Messages move between the parts without changing their order. */
  lemma Regroup(t: seq<Message>, n: seq<Message>, p: seq<Message>, q: seq<Message>, x: seq<Message>)
    ensures n == [] ==> t + n + p + q == t + p + q
    ensures (t + x) + n + p + q == t + (x + n) + p + q
    ensures t + (n + x) + [] + q == t + n + [] + (x + q)
    ensures t + n + p + (q + x) == (t + n + p + q) + x
    ensures t + [] + [] + (x + q) == t + [] + x + q
    ensures (t + x) + [] + [] + q == t + [] + x + q
  {
  }

  lemma PollKeepsOrder(a: Agent)
    requires Phased(a) && Enabled(a, Poll)
    ensures Everywhere(Step(a, Poll)) == Everywhere(a)
  {
    hide SteeredOf, Flat;
    var drained := Peek(a.mode, a.queue);
    SteeredOfSteered(drained);
    SteeredOfNothing();
    assert a.queue == drained + a.queue[|drained|..];
    Regroup(SteeredOf(a.transcript), [], [], a.queue[|drained|..], drained);
  }

  lemma SteeredOfNothing()
    ensures SteeredOf([]) == [] && Flat([]) == []
  {
  }

  lemma BeginTurnKeepsOrder(a: Agent)
    requires Phased(a) && Enabled(a, BeginTurn)
    ensures Everywhere(Step(a, BeginTurn)) == Everywhere(a)
  {
    hide SteeredOf, Flat;
    SteeredConcat(a.transcript, a.pending);
    SteeredOfNothing();
    Regroup(SteeredOf(a.transcript), [], [], a.queue, SteeredOf(a.pending));
  }

  lemma TakeInputKeepsOrder(a: Agent)
    requires Phased(a) && Enabled(a, TakeInput)
    ensures Everywhere(Step(a, TakeInput)) == Everywhere(a)
  {
    hide SteeredOf, Flat;
    var drained := Peek(a.mode, a.queue);
    SteeredOfNothing();
    assert a.queue == drained + a.queue[|drained|..];
    FlatAppend(a.native, drained);
    Regroup(SteeredOf(a.transcript), Flat(a.native), [], a.queue[|drained|..], drained);
  }

  /** A refused input was the last one taken: it goes back where it came from. */
  lemma ConvertedKeepsOrder(a: Agent, ok: bool)
    requires Phased(a) && Enabled(a, Converted(ok))
    ensures Everywhere(Step(a, Converted(ok))) == Everywhere(a)
  {
    hide SteeredOf, Flat;
    SteeredOfNothing();
    var last := |a.native| - 1;
    assert a.native[..last] + [a.native[last]] == a.native;
    FlatAppend(a.native[..last], a.native[last]);
    Regroup(SteeredOf(a.transcript), Flat(a.native[..last]), [], a.queue, a.native[last]);
  }

  lemma ContinueKeepsOrder(a: Agent)
    requires Phased(a) && Enabled(a, Continue)
    ensures Everywhere(Step(a, Continue)) == Everywhere(a)
  {
    hide SteeredOf, Flat;
    var drained := Peek(a.mode, a.queue);
    SteeredConcat(a.transcript, AsSteered(drained));
    SteeredOfSteered(drained);
    SteeredOfNothing();
    assert a.queue == drained + a.queue[|drained|..];
    Regroup(SteeredOf(a.transcript), [], [], a.queue[|drained|..], drained);
  }

  lemma ConfirmKeepsOrder(a: Agent)
    requires Phased(a) && Enabled(a, Confirm(0))
    ensures Everywhere(Step(a, Confirm(0))) == Everywhere(a)
  {
    hide SteeredOf, Flat;
    var first, rest := a.native[0], a.native[1..];
    SteeredConcat(a.transcript, AsSteered(first));
    SteeredOfSteered(first);
    SteeredOfNothing();
    FlatAt(a.native, 0);
    assert a.native[..0] == [] && a.native[..0] + a.native[0 + 1..] == rest;
    Regroup(SteeredOf(a.transcript), Flat(rest), SteeredOf(a.pending), a.queue, first);
  }

  lemma CloseKeepsOrder(a: Agent)
    requires Phased(a) && Enabled(a, CloseResponse)
    ensures Everywhere(Step(a, CloseResponse)) == Everywhere(a)
  {
    hide SteeredOf, Flat;
    SteeredOfNothing();
    assert SteeredOf(a.transcript) + [] + [] + (Flat(a.native) + a.queue) ==
      SteeredOf(a.transcript) + Flat(a.native) + [] + a.queue;
  }

  /** A conversion that is refused after its response closed. */
  predicate RefusedLate(e: Event) { e.ConvertedLate? && !e.ok }

  /** Every step but a confirmation out of turn and a late refusal keeps all messages in steering order. */
  lemma StepKeepsOrder(a: Agent, e: Event)
    requires Phased(a) && Enabled(a, e) && (e.Confirm? ==> e.i == 0) && !RefusedLate(e)
    ensures Everywhere(Step(a, e)) == Everywhere(a) + if e.Steer? then [e.message] else []
  {
    match e {
      case Poll => PollKeepsOrder(a);
      case PollFollowUps(messages) => NoSteeredFollowUps(Step(a, e).pending);
      case BeginTurn => BeginTurnKeepsOrder(a);
      case Continue => ContinueKeepsOrder(a);
      case TakeInput => TakeInputKeepsOrder(a);
      case Converted(ok) => ConvertedKeepsOrder(a, ok);
      case Confirm(i) => ConfirmKeepsOrder(a);
      case CloseResponse => CloseKeepsOrder(a);
      case Steer(m) => assert Everywhere(Step(a, e)) == Everywhere(a) + [m];
      case _ =>
    }
  }

  lemma ConfirmKeepsMessages(a: Agent, i: nat)
    requires Enabled(a, Confirm(i))
    ensures multiset(Everywhere(Step(a, Confirm(i)))) == multiset(Everywhere(a))
  {
    hide SteeredOf, Flat;
    var m := a.native[i];
    var t, p := SteeredOf(a.transcript), SteeredOf(a.pending);
    var before, after := Flat(a.native[..i]), Flat(a.native[i + 1..]);
    SteeredConcat(a.transcript, AsSteered(m));
    SteeredOfSteered(m);
    FlatAt(a.native, i);
    assert Everywhere(a) == t + (before + m + after) + p + a.queue;
    assert Everywhere(Step(a, Confirm(i))) == (t + m) + (before + after) + p + a.queue;
  }

  lemma LateRefusalDoubles(a: Agent, i: nat)
    requires Enabled(a, ConvertedLate(i, false))
    ensures multiset(Everywhere(Step(a, ConvertedLate(i, false)))) == multiset(Everywhere(a)) + multiset(a.stale[i])
  {
    hide SteeredOf, Flat;
    var before := SteeredOf(a.transcript) + Flat(a.native) + SteeredOf(a.pending);
    assert Everywhere(a) == before + a.queue;
    assert Everywhere(Step(a, ConvertedLate(i, false))) == before + (a.stale[i] + a.queue);
  }

  /** What a step adds to the places: a steered message, or one put back a second time. */
  lemma StepKeepsMessages(a: Agent, e: Event)
    requires Phased(a) && Enabled(a, e)
    ensures multiset(Everywhere(Step(a, e))) == multiset(Everywhere(a)) +
      if e.Steer? then multiset{e.message} else if RefusedLate(e) then multiset(a.stale[e.i]) else multiset{}
  {
    hide Everywhere;
    if e.Confirm? {
      ConfirmKeepsMessages(a, e.i);
    } else if RefusedLate(e) {
      LateRefusalDoubles(a, e.i);
    } else {
      StepKeepsOrder(a, e);
    }
  }

  /** The response confirms its inputs in the order they were given to it. */
  predicate InTurn(events: seq<Event>) { forall i :: 0 <= i < |events| && events[i].Confirm? ==> events[i].i == 0 }

  lemma {:induction false} RunPhased(mode: Mode, events: seq<Event>)
    ensures Phased(Run(mode, events))
  {
    if events != [] {
      RunPhased(mode, events[..|events| - 1]);
      var before := Run(mode, events[..|events| - 1]);
      var e := events[|events| - 1];
      if Enabled(before, e) { StepKeepsPhases(before, e); }
    }
  }

  lemma StepHistory(a: Agent, e: Event)
    requires Enabled(a, e)
    ensures Step(a, e).history == a.history + if e.Steer? then [e.message] else []
    ensures Step(a, e).doubled == a.doubled + if RefusedLate(e) then a.stale[e.i] else []
  {
  }

  /** No message is lost, and what is anywhere twice was put back twice. */
  lemma {:induction false} EveryMessageIsSomewhere(mode: Mode, events: seq<Event>)
    ensures var a := Run(mode, events); multiset(Everywhere(a)) == multiset(a.history) + multiset(a.doubled)
  {
    hide Everywhere, Step;
    if events == [] {
      NothingAnywhere(mode);
    } else {
      EveryMessageIsSomewhere(mode, events[..|events| - 1]);
      RunPhased(mode, events[..|events| - 1]);
      var before := Run(mode, events[..|events| - 1]);
      var e := events[|events| - 1];
      if Enabled(before, e) {
        StepKeepsMessages(before, e);
        StepHistory(before, e);
      }
    }
  }

  /** An event of the run is a conversion refused after its response closed. */
  ghost predicate SomeRefusedLate(mode: Mode, events: seq<Event>) {
    exists i :: 0 <= i < |events| && RefusedLate(events[i]) && Enabled(Run(mode, events[..i]), events[i])
  }

  lemma {:induction false} DoubledIffRefusedLate(mode: Mode, events: seq<Event>)
    ensures Run(mode, events).doubled != [] <==> SomeRefusedLate(mode, events)
  {
    hide Step;
    if events != [] {
      var init, last := events[..|events| - 1], |events| - 1;
      DoubledIffRefusedLate(mode, init);
      RunPhased(mode, init);
      assert forall i :: 0 <= i <= |init| ==> init[..i] == events[..i];
      assert forall i :: 0 <= i < |init| ==> init[i] == events[i];
      if Enabled(Run(mode, init), events[last]) { StepHistory(Run(mode, init), events[last]); }
      if SomeRefusedLate(mode, init) {
        var i :| 0 <= i < |init| && RefusedLate(init[i]) && Enabled(Run(mode, init[..i]), init[i]);
        assert RefusedLate(events[i]) && Enabled(Run(mode, events[..i]), events[i]);
      }
      if RefusedLate(events[last]) && Enabled(Run(mode, init), events[last]) {
        assert events[..last] == init;
        assert SomeRefusedLate(mode, events);
      }
      if SomeRefusedLate(mode, events) && !SomeRefusedLate(mode, init) {
        var i :| 0 <= i < |events| && RefusedLate(events[i]) && Enabled(Run(mode, events[..i]), events[i]);
        assert i == last;
      }
    }
  }

  /**
    * Every steered message is in exactly one place, as often as it was steered, if and only if no conversion of a
    * native input was refused after its response closed.
    */
  lemma ConservedUnlessRefusedLate(mode: Mode, events: seq<Event>)
    ensures var a := Run(mode, events);
      multiset(Everywhere(a)) == multiset(a.history) <==> !SomeRefusedLate(mode, events)
  {
    EveryMessageIsSomewhere(mode, events);
    DoubledIffRefusedLate(mode, events);
    var a := Run(mode, events);
    if a.doubled != [] { assert a.doubled[0] in multiset(a.doubled); }
  }

  /** No response closes while an input is being converted. */
  ghost predicate Calm(mode: Mode, events: seq<Event>) {
    forall i :: 0 <= i < |events| && events[i].CloseResponse? ==> !Run(mode, events[..i]).converting
  }

  lemma {:induction false} CalmHasNothingStale(mode: Mode, events: seq<Event>)
    requires Calm(mode, events)
    ensures Run(mode, events).stale == [] && Run(mode, events).doubled == []
  {
    if events != [] {
      hide Step, Enabled;
      var init, last := events[..|events| - 1], |events| - 1;
      assert forall i :: 0 <= i <= |init| ==> init[..i] == events[..i];
      assert forall i :: 0 <= i < |init| ==> init[i] == events[i];
      CalmHasNothingStale(mode, init);
      assert events[..last] == init;
      assert events[last].CloseResponse? ==> !Run(mode, init).converting;
      CalmStep(Run(mode, init), events[last]);
    }
  }

  lemma CalmStep(a: Agent, e: Event)
    requires a.stale == [] && a.doubled == [] && (e.CloseResponse? ==> !a.converting)
    ensures Enabled(a, e) ==> Step(a, e).stale == [] && Step(a, e).doubled == []
  {
    hide Flat, AsSteered;
  }

  /** A caller that lets no response close during a conversion loses and doubles nothing. */
  lemma CalmConserves(mode: Mode, events: seq<Event>)
    requires Calm(mode, events)
    ensures multiset(Everywhere(Run(mode, events))) == multiset(Run(mode, events).history)
  {
    CalmHasNothingStale(mode, events);
    EveryMessageIsSomewhere(mode, events);
  }

  /** A message is taken for a response that closes, and its conversion is refused after that. */
  function Doubling(m: Message): seq<Event> {
    [Steer(m), OpenResponse, TakeInput, CloseResponse, ConvertedLate(0, false)]
  }

  lemma RunPush(mode: Mode, events: seq<Event>, n: nat)
    requires n < |events|
    ensures var a := Run(mode, events[..n]);
      Run(mode, events[..n + 1]) == if Enabled(a, events[n]) then Step(a, events[n]) else a
  {
    assert events[..n + 1][..n] == events[..n];
  }

  lemma LateRefusalDoublesMessage(mode: Mode, m: Message)
    ensures Run(mode, Doubling(m)).queue == [m, m] && Run(mode, Doubling(m)).history == [m]
  {
    hide Step, Enabled, Run;
    var events := Doubling(m);
    var begun := Start(mode);
    assert events[..0] == [] && Run(mode, []) == begun by { NoEvents(mode); }
    RunPush(mode, events, 0);
    var one := begun.(queue := [m], history := [m]);
    SteersOne(begun, m);
    RunPush(mode, events, 1);
    var two := one.(responding := true);
    Opens(one);
    RunPush(mode, events, 2);
    TakesOne(two, m);
    RunPush(mode, events, 3);
    ClosesOne(two.(queue := [], native := [[m]], converting := true), m);
    RunPush(mode, events, 4);
    assert events[..5] == events;
  }

  lemma NoEvents(mode: Mode)
    ensures Run(mode, []) == Start(mode)
  {
  }

  lemma SteersOne(a: Agent, m: Message)
    requires a.queue == [] && a.history == []
    ensures Enabled(a, Steer(m)) && Step(a, Steer(m)) == a.(queue := [m], history := [m])
  {
    assert [] + [m] == [m];
  }

  lemma Opens(a: Agent)
    requires a.pending == [] && !a.responding
    ensures Enabled(a, OpenResponse) && Step(a, OpenResponse) == a.(responding := true)
  {
  }

  lemma TakesOne(a: Agent, m: Message)
    requires a.queue == [m] && a.native == [] && a.responding && !a.converting
    ensures Enabled(a, TakeInput) && Step(a, TakeInput) == a.(queue := [], native := [[m]], converting := true)
  {
    assert [m][..1] == [m] && [m][1..] == [];
  }

  lemma ClosesOne(a: Agent, m: Message)
    requires a.queue == [] && a.native == [[m]] && a.responding && a.converting && a.stale == []
    ensures var closed := a.(responding := false, converting := false, native := [], queue := [m], stale := [[m]]);
      && Enabled(a, CloseResponse) && Step(a, CloseResponse) == closed
      && Enabled(closed, ConvertedLate(0, false))
      && Step(closed, ConvertedLate(0, false)) == closed.(stale := [], queue := [m, m], doubled := a.doubled + [m])
  {
    assert [[m]][..0] == [] && Flat([[m]]) == [m];
    assert [[m]][..0] + [[m]][1..] == [];
    assert [m] + [m] == [m, m];
  }

  lemma NothingAnywhere(mode: Mode)
    ensures Everywhere(Start(mode)) == []
  {
  }

  lemma {:induction false} EverywhereIsHistory(mode: Mode, events: seq<Event>)
    requires InTurn(events) && Run(mode, events).doubled == []
    ensures Everywhere(Run(mode, events)) == Run(mode, events).history
  {
    hide Everywhere, Step;
    if events == [] {
      NothingAnywhere(mode);
    } else {
      var init := events[..|events| - 1];
      assert forall i :: 0 <= i < |init| ==> init[i] == events[i];
      RunPhased(mode, init);
      var before := Run(mode, init);
      var e := events[|events| - 1];
      if Enabled(before, e) { StepHistory(before, e); }
      EverywhereIsHistory(mode, init);
      if Enabled(before, e) {
        StepKeepsOrder(before, e);
        StepHistory(before, e);
      }
    }
  }

  /** With inputs confirmed in turn and none refused late, transcript order is steering order, and nothing overtakes. */
  lemma TranscriptInSteeringOrder(mode: Mode, events: seq<Event>)
    requires InTurn(events) && !SomeRefusedLate(mode, events)
    ensures SteeredOf(Run(mode, events).transcript) <= Run(mode, events).history
    ensures var a := Run(mode, events);
      SteeredOf(a.transcript) + Flat(a.native) + SteeredOf(a.pending) + a.queue == a.history
  {
    DoubledIffRefusedLate(mode, events);
    EverywhereIsHistory(mode, events);
  }

  /** Confirming an input out of turn puts it before messages steered earlier: exactly then order is lost. */
  lemma OutOfTurnLosesOrder(a: Agent, i: nat)
    requires Phased(a) && Enabled(a, Confirm(i))
    requires forall j, k :: 0 <= j < k < |Everywhere(a)| ==> Everywhere(a)[j] != Everywhere(a)[k]
    ensures Everywhere(Step(a, Confirm(i))) == Everywhere(a) <==> i == 0
  {
    if i == 0 {
      StepKeepsOrder(a, Confirm(0));
    } else {
      var next := Step(a, Confirm(i));
      SteeredConcat(a.transcript, AsSteered(a.native[i]));
      SteeredOfSteered(a.native[i]);
      FlatAt(a.native, i);
      FlatAt(a.native, 0);
      var n := |SteeredOf(a.transcript)|;
      assert Everywhere(next)[n] == a.native[i][0];
      assert Everywhere(a)[n] == a.native[0][0];
      var k := n + |Flat(a.native[..i])|;
      assert Everywhere(a)[k] == a.native[i][0];
      FlatAt(a.native[..i], 0);
      assert a.native[..i][0] == a.native[0] && |Flat(a.native[..i])| > 0;
    }
  }

  // ---------------------------------------------------------------------------------------------
  // The queue

  class PendingMessageQueue {
    var messages: seq<Message>
    var mode: Mode

    constructor (mode: Mode)
      ensures this.mode == mode && messages == []
    {
      this.mode := mode;
      messages := [];
    }

    method Enqueue(message: Message)
      modifies this`messages
      ensures messages == old(messages) + [message]
    {
      messages := messages + [message];
    }

    method Prepend(restored: seq<Message>)
      modifies this`messages
      ensures messages == restored + old(messages)
    {
      messages := restored + messages;
    }

    /** Takes what the mode allows off the front, and nothing else. */
    method Drain() returns (drained: seq<Message>)
      modifies this`messages
      ensures drained == Peek(mode, old(messages)) && drained + messages == old(messages)
      ensures old(messages) != [] ==> drained != []
    {
      drained := if mode == All then messages else if messages == [] then [] else [messages[0]];
      messages := messages[|drained|..];
    }

    method RemoveAt(index: int) returns (removed: Option<Message>)
      modifies this`messages
      ensures removed.Some? <==> 0 <= index < |old(messages)|
      ensures removed.None? ==> messages == old(messages)
      ensures removed.Some? ==>
        removed.value == old(messages)[index] && messages == old(messages)[..index] + old(messages)[index + 1..]
    {
      if index < 0 || index >= |messages| {
        return None;
      }
      removed := Some(messages[index]);
      messages := messages[..index] + messages[index + 1..];
    }
  }
}

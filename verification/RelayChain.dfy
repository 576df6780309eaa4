/** State through any number of relays: each hop is a link end that got, in order, what the hop before it sent. */
module RelayChain {
  import opened Streams
  import opened Flow
  import opened FlowAccounting
  import opened FlowStreams
  import opened Consumers
  import opened ConsumerRuns
  import opened RelayResets
  import opened ResetsSent
  import Sessions

  /** A run of one hop with its own window, cap and sizes, and the hold the state travels under on its outgoing link. */
  datatype Hop = Hop(c: Config, events: seq<Event>, hold: nat)

  function End(hop: Hop): St {
    Run(hop.c, Init, hop.events)
  }

  // --- an inbox without a gap makes the run admissible ---

  /** Hold ids are not reused (they are counted, never reset, while a link lives). */
  predicate FreshHolds(c: Config, events: seq<Event>, h: nat) {
    forall i | 0 <= i < |events| ::
      (events[i].HoldLocal? || events[i].HoldRelay?) && events[i].hold == h ==>
        var s := Run(c, Init, events[..i]); s.closed || h in s.served || h !in s.used
  }

  lemma {:induction false} HonestInbox(c: Config, events: seq<Event>, h: nat, m: Member)
    requires FreshHolds(c, events, h)
    requires var s := Run(c, Init, events); CopyIn(c, s.inbox, h, m) != Gap && h !in s.cut
    ensures AdmissibleRun(c, events, h, m)
  {
    if events != [] {
      var init, e := events[..|events| - 1], events[|events| - 1];
      var s := Run(c, Init, init);
      StepFrame(c, s, e);
      PrefixGapFree(c.apply, s.inbox, FromRelay(s, e), h, m);
      assert forall i | 0 <= i < |init| :: init[..i] == events[..i];
      HonestInbox(c, init, h, m);
      assert Admissible(c, s, e, h, m) by {
        if e.FromDown? && IsState(e.frame, h, m) && IsRelay(s, h) && !s.closed {
          assert FromRelay(s, e) == [e.frame];
        }
      }
    }
  }

  // --- the stream of one hold, under a common name ---

  function Rename(f: Frame): Frame {
    match f
    case State(_, m, body) => State(0, m, body)
    case Shape(_, listed) => Shape(0, listed)
    case Other(tag) => Other(tag)
  }

  predicate Of(f: Frame, hold: nat) {
    (f.State? && f.hold == hold) || IsShape(f, hold)
  }

  function Project(frames: seq<Frame>, hold: nat): seq<Frame> {
    if frames == [] then []
    else
      var last := frames[|frames| - 1];
      Project(frames[..|frames| - 1], hold) + (if Of(last, hold) then [Rename(last)] else [])
  }

  lemma {:induction false} ProjectKeepsCopy(apply: Apply, frames: seq<Frame>, hold: nat, m: Member)
    ensures CopyOf(apply, frames, hold, m) == CopyOf(apply, Project(frames, hold), 0, m)
  {
    if frames != [] {
      var init, last := frames[..|frames| - 1], frames[|frames| - 1];
      ProjectKeepsCopy(apply, init, hold, m);
      if Of(last, hold) {
        CopyOfPush(apply, Project(init, hold), Rename(last), 0, m);
      } else {
        assert Project(frames, hold) == Project(init, hold);
      }
    }
  }

  /**
   * The chain: the first hop serves the state (or relays it from somewhere honest); every later hop got, under its own
   * hold id, a prefix of what the hop before it sent (links are FIFO; the rest is in flight). No hop's peer switched
   * the state off meanwhile. Only what ops mean is common: windows, caps and sizes are those of each link.
   */
  ghost predicate Chain(apply: Apply, hops: seq<Hop>) {
    && hops != []
    && (forall i | 0 <= i < |hops| :: hops[i].c.apply == apply)
    && (forall m: Member :: AdmissibleRun(hops[0].c, hops[0].events, hops[0].hold, m))
    && (forall i | 0 <= i < |hops| :: hops[i].hold !in End(hops[i]).cut)
    && (forall i | 0 <= i < |hops| :: FreshHolds(hops[i].c, hops[i].events, hops[i].hold))
    && (forall i | 0 < i < |hops| ::
          Project(End(hops[i]).inbox, hops[i].hold) <= Project(End(hops[i - 1]).wire, hops[i - 1].hold))
  }

  lemma {:induction false} HopAdmissible(apply: Apply, hops: seq<Hop>, i: nat, m: Member)
    requires Chain(apply, hops) && i < |hops|
    ensures AdmissibleRun(hops[i].c, hops[i].events, hops[i].hold, m)
  {
    hide Good, CopyOf, Project, FreshHolds;
    if i > 0 {
      HopAdmissible(apply, hops, i - 1, m);
      var (sender, receiver) := (hops[i - 1], hops[i]);
      var sent := End(sender).wire;
      assert sent + [] == sent;
      GapFree(sender.c, sender.events, sent, [], sender.hold, m);
      var out := Project(End(sender).wire, sender.hold);
      var got := Project(End(receiver).inbox, receiver.hold);
      ProjectKeepsCopy(apply, End(sender).wire, sender.hold, m);
      ProjectKeepsCopy(apply, End(receiver).inbox, receiver.hold, m);
      assert out == got + out[|got|..];
      PrefixGapFree(apply, got, out[|got|..], 0, m);
      HonestInbox(receiver.c, receiver.events, receiver.hold, m);
    }
  }

  /** Through any number of relays, what any hop has sent so far is free of gaps. */
  lemma ChainGapFree(apply: Apply, hops: seq<Hop>, i: nat, delivered: seq<Frame>, inFlight: seq<Frame>, m: Member)
    requires Chain(apply, hops) && i < |hops|
    requires End(hops[i]).wire == delivered + inFlight
    ensures CopyOf(apply, delivered, hops[i].hold, m) != Gap
    ensures Sessions.ShapeFirst(delivered, hops[i].hold, m)
    ensures Sessions.Contiguous(Sessions.Items(delivered, hops[i].hold, m))
  {
    HopAdmissible(apply, hops, i, m);
    GapFree(hops[i].c, hops[i].events, delivered, inFlight, hops[i].hold, m);
  }

  // --- the sessions of a stream, hop by hop ---

  lemma {:induction false} ProjectKeepsStarts(frames: seq<Frame>, hold: nat, m: Member)
    ensures Starts(frames, hold, m) == Starts(Project(frames, hold), 0, m)
  {
    if frames != [] {
      var init, last := frames[..|frames| - 1], frames[|frames| - 1];
      ProjectKeepsStarts(init, hold, m);
      if Of(last, hold) {
        StartsPush(Project(init, hold), Rename(last), 0, m);
      } else {
        assert Project(frames, hold) == Project(init, hold);
      }
    }
  }

  /** What came in under one id of what went out under another starts the first of the same sessions. */
  lemma ArrivedStarts(got: seq<Frame>, hold: nat, sent: seq<Frame>, under: nat, m: Member)
    requires Project(got, hold) <= Project(sent, under)
    ensures Starts(got, hold, m) <= Starts(sent, under, m)
    ensures Project(got, hold) == Project(sent, under) ==> Starts(got, hold, m) == Starts(sent, under, m)
  {
    hide Starts, Project;
    var (a, b) := (Project(got, hold), Project(sent, under));
    ProjectKeepsStarts(got, hold, m);
    ProjectKeepsStarts(sent, under, m);
    assert b == a + b[|a|..];
    StartsAppend(a, b[|a|..], 0, m);
  }

  /** The first hop serves the state and the others, up to hop `i`, still relay it. */
  predicate Connected(hops: seq<Hop>, i: nat)
    requires i < |hops|
  {
    IsLocal(End(hops[0]), hops[0].hold) && forall j | 0 < j <= i :: IsRelay(End(hops[j]), hops[j].hold)
  }

  /** Through any number of relays, every base that any hop sent starts a session of its own. */
  lemma {:induction false} ChainDistinct(apply: Apply, hops: seq<Hop>, i: nat, m: Member)
    requires Chain(apply, hops) && i < |hops| && Connected(hops, i)
    ensures Consumers.Distinct(Starts(End(hops[i]).wire, hops[i].hold, m))
  {
    hide Starts, Project, CopyOf, AdmissibleRun, FreshHolds;
    HopAdmissible(apply, hops, i, m);
    var s := End(hops[i]);
    var (sent, waiting) := (Starts(s.wire, hops[i].hold, m), SlotStarts(s, hops[i].hold, m));
    RunNumbered(hops[i].c, hops[i].events, hops[i].hold, m);
    if i == 0 {
      assert sent + [] + waiting == sent + waiting;
      RisingDistinct(sent, [], waiting, s.nextSession);
    } else {
      ChainDistinct(apply, hops, i - 1, m);
      var got := Starts(s.inbox, hops[i].hold, m);
      var before := Starts(End(hops[i - 1]).wire, hops[i - 1].hold, m);
      ArrivedStarts(s.inbox, hops[i].hold, End(hops[i - 1]).wire, hops[i - 1].hold, m);
      assert forall x | 0 <= x < |got| :: got[x] == before[x];
      AmongPrefix(sent, waiting, got);
      AmongDistinct(sent, got);
    }
  }

  /**
   * A consumer at any point of the chain, whatever is in flight to it: if it has the member, it is in step with what it
   * got exactly when the last base it got was no error.
   */
  lemma ChainConsumerFollows(apply: Apply, hops: seq<Hop>, i: nat, history: seq<Happening>, inFlight: seq<Frame>,
      m: Member)
    requires Chain(apply, hops) && i < |hops| && Connected(hops, i)
    requires End(hops[i]).wire == Arrived(history) + inFlight
    ensures var x := Held(apply, history, hops[i].hold, m);
      x.Absent? || x.Ended? ||
      ((InStep(x, CopyOf(apply, Arrived(history), hops[i].hold, m)) <==> !Erred(Arrived(history), hops[i].hold, m)) &&
       (Erred(Arrived(history), hops[i].hold, m) && x.Holds? ==>
          CopyOf(apply, Arrived(history), hops[i].hold, m).Broken? &&
          x.session != CopyOf(apply, Arrived(history), hops[i].hold, m).session))
  {
    hide Starts, Held, CopyOf, Erred, Chain;
    ChainGapFree(apply, hops, i, Arrived(history), inFlight, m);
    ChainDistinct(apply, hops, i, m);
    StartsAppend(Arrived(history), inFlight, hops[i].hold, m);
    var starts := Starts(Arrived(history), hops[i].hold, m);
    assert forall x | 0 <= x < |starts| :: starts[x] == Starts(End(hops[i]).wire, hops[i].hold, m)[x];
    InStepUnlessErred(apply, history, hops[i].hold, m);
  }

  // --- at rest ---

  /** Event `k` is the request: an open end handled it, and had sent by then what had come in before it was made. */
  predicate HeardAt(sender: Hop, a: Ask, k: nat)
    requires k < |sender.events|
  {
    var s := Run(sender.c, Init, sender.events[..k]);
    && sender.events[k] == AskReset(sender.hold, a.m) && !s.closed && sender.hold in s.used
    && Project(a.got, a.hold) <= Project(s.wire, sender.hold)
  }

  /** The request reached the end it was made to, or was made before there was anything to replace. */
  ghost predicate Heard(sender: Hop, a: Ask) {
    Starts(a.got, a.hold, a.m) == [] || exists k | 0 <= k < |sender.events| :: HeardAt(sender, a, k)
  }

  /**
   * Nothing of member `m` waits at hop `i`, and nothing is in flight between it and the hop before: neither frames nor
   * requests. That no reset is awaited is not asked for; it is proved.
   */
  ghost predicate Settled(hops: seq<Hop>, i: nat, m: Member)
    requires i < |hops|
  {
    var s := End(hops[i]);
    && !HasSlot(s, hops[i].hold, m)
    && (i > 0 ==>
          && IsRelay(s, hops[i].hold)
          && Project(s.inbox, hops[i].hold) == Project(End(hops[i - 1]).wire, hops[i - 1].hold)
          && forall a | a in s.asked && About(a, hops[i].hold, m) :: Heard(hops[i - 1], a))
  }

  lemma {:induction false} BasesStart(apply: Apply, frames: seq<Frame>, h: nat, m: Member)
    requires var copy := CopyOf(apply, frames, h, m); copy.Copy? || copy.Broken?
    ensures Bases(frames, h, m) > 0
  {
    var init, last := frames[..|frames| - 1], frames[|frames| - 1];
    if IsState(last, h, m) && last.body.Ops? {
      var copy := CopyOf(apply, init, h, m);
      OpsKind(apply, copy, last.body.ops);
      BasesStart(apply, init, h, m);
    } else if !IsState(last, h, m) {
      BasesStart(apply, init, h, m);
    }
  }

  /** Every request of a settled hop was answered, if the hop before it owes nothing. */
  lemma SettledAnswered(apply: Apply, hops: seq<Hop>, i: nat, m: Member)
    requires Chain(apply, hops) && 0 < i < |hops| && Settled(hops, i, m)
    requires var t := End(hops[i - 1]);
      && Serves(t, hops[i - 1].hold, m) && !HasSlot(t, hops[i - 1].hold, m) && !Awaits(t, hops[i - 1].hold, m)
      && Bases(t.wire, hops[i - 1].hold, m) > 0
    ensures Answered(End(hops[i]), hops[i].hold, m)
  {
    hide Starts, Project, Chain, AdmissibleRun, HeardAt, Serves, HasSlot, Awaits;
    HopAdmissible(apply, hops, i - 1, m);
    var (s, hold, sender) := (End(hops[i]), hops[i].hold, hops[i - 1]);
    ArrivedStarts(s.inbox, hold, End(sender).wire, sender.hold, m);
    forall a | a in s.asked && About(a, hold, m) ensures Bases(a.got, hold, m) < Bases(s.inbox, hold, m) {
      assert Heard(sender, a);
      if Starts(a.got, hold, m) != [] {
        var k :| 0 <= k < |sender.events| && HeardAt(sender, a, k);
        HeardIsMet(sender, a, k);
      }
    }
  }

  lemma HeardIsMet(sender: Hop, a: Ask, k: nat)
    requires AdmissibleRun(sender.c, sender.events, sender.hold, a.m) && k < |sender.events| && HeardAt(sender, a, k)
    requires var t := End(sender);
      Serves(t, sender.hold, a.m) && !HasSlot(t, sender.hold, a.m) && !Awaits(t, sender.hold, a.m)
    ensures Bases(a.got, a.hold, a.m) < Bases(End(sender).wire, sender.hold, a.m)
  {
    hide Starts, Project, AdmissibleRun, Serves, HasSlot, Awaits;
    RequestIsMet(sender.c, sender.events, k, sender.hold, a.m);
    ArrivedStarts(a.got, a.hold, Run(sender.c, Init, sender.events[..k]).wire, sender.hold, a.m);
  }

  /** A settled hop whose requests were answered has sent what the hop before it sent. */
  lemma HopAgrees(apply: Apply, hops: seq<Hop>, i: nat, m: Member)
    requires Chain(apply, hops) && 0 < i < |hops| && Settled(hops, i, m) && Answered(End(hops[i]), hops[i].hold, m)
    ensures !Awaits(End(hops[i]), hops[i].hold, m)
    ensures CopyOf(apply, End(hops[i]).wire, hops[i].hold, m) ==
      CopyOf(apply, End(hops[i - 1]).wire, hops[i - 1].hold, m)
  {
    hide CopyOf, Project, AdmissibleRun, Starts, FreshHolds, Answered;
    var (before, hop) := (hops[i - 1], hops[i]);
    HopAdmissible(apply, hops, i, m);
    AwaitedIffUnanswered(hop.c, hop.events, hop.hold, m);
    AnsweredRelayAgrees(hop.c, hop.events, hop.hold, m);
    ProjectKeepsCopy(apply, End(before).wire, before.hold, m);
    ProjectKeepsCopy(apply, End(hop).inbox, hop.hold, m);
  }

  /**
   * Once nothing waits and nothing is in flight up to hop `i`, no relay on the way awaits a reset, and what hop `i`
   * sent is exactly the revision the source told the first hop last, whatever was coalesced, dropped and asked for
   * again.
   */
  lemma {:induction false} ChainAgrees(apply: Apply, hops: seq<Hop>, i: nat, m: Member)
    requires Chain(apply, hops) && i < |hops|
    requires forall j | 0 <= j <= i :: Settled(hops, j, m)
    requires HasFeed(End(hops[0]), hops[0].hold, m)
    ensures !Awaits(End(hops[i]), hops[i].hold, m)
    ensures CopyOf(apply, End(hops[i]).wire, hops[i].hold, m) ==
      Told(End(hops[0]).served[hops[0].hold].feeds[m])
  {
    hide CopyOf, Chain, Settled;
    assert Settled(hops, i, m);
    if i > 0 {
      ChainAgrees(apply, hops, i - 1, m);
      HopSettles(apply, hops, i, m, End(hops[0]).served[hops[0].hold].feeds[m]);
    } else {
      SourceTells(apply, hops, m);
    }
  }

  lemma SourceTells(apply: Apply, hops: seq<Hop>, m: Member)
    requires Chain(apply, hops) && Settled(hops, 0, m) && HasFeed(End(hops[0]), hops[0].hold, m)
    ensures CopyOf(apply, End(hops[0]).wire, hops[0].hold, m) == Told(End(hops[0]).served[hops[0].hold].feeds[m])
  {
    hide CopyOf;
    RunGood(hops[0].c, hops[0].events, hops[0].hold, m);
  }

  /** Owed nothing by the hop before, which is where `feed` is, a settled hop is there too. */
  lemma HopSettles(apply: Apply, hops: seq<Hop>, i: nat, m: Member, feed: Feed)
    requires Chain(apply, hops) && 0 < i < |hops| && Settled(hops, i - 1, m) && Settled(hops, i, m)
    requires i == 1 ==> HasFeed(End(hops[0]), hops[0].hold, m)
    requires !Awaits(End(hops[i - 1]), hops[i - 1].hold, m)
    requires CopyOf(apply, End(hops[i - 1]).wire, hops[i - 1].hold, m) == Told(feed)
    ensures !Awaits(End(hops[i]), hops[i].hold, m)
    ensures CopyOf(apply, End(hops[i]).wire, hops[i].hold, m) == Told(feed)
  {
    hide CopyOf, Project, AdmissibleRun, Bases, FreshHolds, Answered;
    BasesStart(apply, End(hops[i - 1]).wire, hops[i - 1].hold, m);
    SettledAnswered(apply, hops, i, m);
    HopAgrees(apply, hops, i, m);
  }

  lemma SettledConnected(hops: seq<Hop>, i: nat, m: Member)
    requires i < |hops| && (forall j | 0 <= j <= i :: Settled(hops, j, m))
    requires HasFeed(End(hops[0]), hops[0].hold, m)
    ensures Connected(hops, i)
  {
    hide Project, HasSlot, Heard, Run;
    forall j | 0 < j <= i ensures IsRelay(End(hops[j]), hops[j].hold) {
      assert Settled(hops, j, m);
    }
  }

  /**
   * A consumer at the far end, once it got all of that: if it has the member, it holds the revision the source told
   * last, with a decoder in step with the source's encoder, exactly when the value that the source's feed started from
   * was valid. One that never forgot the member, nor failed over an error that came before its first state, does then.
   */
  lemma ChainConsumerAgrees(apply: Apply, hops: seq<Hop>, i: nat, history: seq<Happening>, m: Member)
    requires Chain(apply, hops) && i < |hops|
    requires forall j | 0 <= j <= i :: Settled(hops, j, m)
    requires HasFeed(End(hops[0]), hops[0].hold, m)
    requires Arrived(history) == End(hops[i]).wire
    ensures var feed := End(hops[0]).served[hops[0].hold].feeds[m];
      var x := Held(apply, history, hops[i].hold, m);
      && (feed.errored <==> Erred(Arrived(history), hops[i].hold, m))
      && (x.Absent? || x.Ended? || (x == Holds(feed.seen, feed.session, feed.next) <==> !feed.errored))
      && (Keeps(history, hops[i].hold, m) && !feed.errored ==> x == Holds(feed.seen, feed.session, feed.next))
  {
    hide CopyOf, Held, Erred, Keeps, Chain, HasSlot, Project, Consumers.Distinct;
    ChainAgrees(apply, hops, i, m);
    SettledConnected(hops, i, m);
    ChainDistinct(apply, hops, i, m);
    ConsumerAtRest(apply, history, End(hops[0]).served[hops[0].hold].feeds[m], hops[i].hold, m);
  }
}

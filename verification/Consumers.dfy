/**
 * What the consumer of a stream holds: the value and decoder of one member of a `RemoteBinding`. An error only gets
 * reported (or ends a binding that had no state yet): the old value stays, and so does the old decoder, which the ops
 * that follow the error were not encoded for.
 */
module Consumers {
  import opened Streams

  /**
   * `Absent`: the member has no value, ops for it are ignored. `Holds`: a value, and the session and position of its
   * decoder. `Astray`: the decoder was given ops of another session, so what is held is no revision of the stream.
   * `Ended`: the binding failed.
   */
  datatype Consumer = Absent | Holds(value: Value, session: nat, next: nat) | Astray | Ended

  /**
   * A frame arrives (`hydrated`: the binding had its first state), or the binding drops the member's value: its state
   * was switched off, or the member left the variant.
   */
  datatype Happening = Arrives(frame: Frame, hydrated: bool) | Forgets

  function ReadOp(apply: Apply, x: Consumer, op: WireOp): Consumer {
    match x
    case Holds(v, session, next) =>
      if op.session == session && op.index == next then Holds(apply(v, op.op), session, next + 1) else Astray
    case _ => x
  }

  function ReadOps(apply: Apply, x: Consumer, ops: seq<WireOp>): Consumer {
    if ops == [] then x else ReadOp(apply, ReadOps(apply, x, ops[..|ops| - 1]), ops[|ops| - 1])
  }

  function Read(apply: Apply, x: Consumer, body: Body, hydrated: bool): Consumer {
    if x.Ended? then x else
    match body
    case Snap(v, session) => Holds(v, session, 0)
    case Reset(v, session) => Holds(v, session, 0)
    case Error(_) => if hydrated then x else Ended
    case Ops(ops) => ReadOps(apply, x, ops)
  }

  function After(apply: Apply, x: Consumer, e: Happening, h: nat, m: Member): Consumer {
    match e
    case Arrives(f, hydrated) => if IsState(f, h, m) then Read(apply, x, f.body, hydrated) else x
    case Forgets => if x.Ended? then x else Absent
  }

  /** What the consumer of member `m` of hold `h` holds after a history of its binding. */
  function Held(apply: Apply, history: seq<Happening>, h: nat, m: Member): Consumer {
    if history == [] then Absent
    else After(apply, Held(apply, history[..|history| - 1], h, m), history[|history| - 1], h, m)
  }

  function Arrived(history: seq<Happening>): seq<Frame> {
    if history == [] then []
    else
      var last := history[|history| - 1];
      Arrived(history[..|history| - 1]) + (if last.Arrives? then [last.frame] else [])
  }

  /** The last base of the stream is an error. */
  predicate Erred(frames: seq<Frame>, h: nat, m: Member) {
    frames != [] &&
    var last := frames[|frames| - 1];
    if IsState(last, h, m) && !last.body.Ops? then last.body.Error? else Erred(frames[..|frames| - 1], h, m)
  }

  /** The sessions that bases of the stream start, in order. */
  function Starts(frames: seq<Frame>, h: nat, m: Member): seq<nat> {
    if frames == [] then []
    else
      var last := frames[|frames| - 1];
      Starts(frames[..|frames| - 1], h, m)
      + (if IsState(last, h, m) && !last.body.Ops? then [last.body.session] else [])
  }

  /** Every base starts a session of its own. */
  predicate Distinct(starts: seq<nat>) {
    forall i, j | 0 <= i < j < |starts| :: starts[i] != starts[j]
  }

  /** The consumer's value and decoder are those of the stream. */
  predicate InStep(x: Consumer, copy: Copy) {
    copy.Copy? && x == Holds(copy.value, copy.session, copy.next)
  }

  // --- the consumer of a stream without a gap ---

  lemma {:induction false} OpsInStep(apply: Apply, copy: Copy, x: Consumer, ops: seq<WireOp>)
    requires InStep(x, copy) && ReceiveOps(apply, copy, ops) != Gap
    ensures InStep(ReadOps(apply, x, ops), ReceiveOps(apply, copy, ops))
  {
    if ops != [] { OpsInStep(apply, copy, x, ops[..|ops| - 1]); }
  }

  lemma {:induction false} OpsOutOfStep(apply: Apply, x: Consumer, ops: seq<WireOp>)
    ensures var y := ReadOps(apply, x, ops);
      && (x.Absent? ==> y.Absent?) && (x.Ended? ==> y.Ended?) && (x.Astray? ==> y.Astray?)
      && (x.Holds? ==> y.Astray? || (y.Holds? && y.session == x.session))
  {
    if ops != [] { OpsOutOfStep(apply, x, ops[..|ops| - 1]); }
  }

  lemma {:induction false} OpsKind(apply: Apply, copy: Copy, ops: seq<WireOp>)
    requires ReceiveOps(apply, copy, ops) != Gap
    ensures var after := ReceiveOps(apply, copy, ops);
      && copy != Gap
      && (copy.Copy? <==> after.Copy?) && (copy.Broken? <==> after.Broken?)
      && (copy.Copy? || copy.Broken? ==> copy.session == after.session)
  {
    if ops != [] { OpsKind(apply, copy, ops[..|ops| - 1]); }
  }

  /** The stream is in an error exactly if its last base is one. */
  lemma {:induction false} ErredIsBroken(apply: Apply, frames: seq<Frame>, h: nat, m: Member)
    requires CopyOf(apply, frames, h, m) != Gap
    ensures CopyOf(apply, frames, h, m).Broken? <==> Erred(frames, h, m)
  {
    if frames != [] {
      var init, last := frames[..|frames| - 1], frames[|frames| - 1];
      assert init + [last] == frames;
      PrefixGapFree(apply, init, [last], h, m);
      ErredIsBroken(apply, init, h, m);
      if IsState(last, h, m) && last.body.Ops? { OpsKind(apply, CopyOf(apply, init, h, m), last.body.ops); }
    }
  }

  /**
   * What a consumer can hold where a stream is: in step with it, or nothing (it forgot, or the binding ended), unless
   * the stream is in an error; then whatever it had before.
   */
  predicate Plausible(x: Consumer, copy: Copy) {
    x.Absent? || x.Ended? || copy.Broken? || InStep(x, copy)
  }

  lemma {:induction false} ConsumerPlausible(apply: Apply, history: seq<Happening>, h: nat, m: Member)
    requires CopyOf(apply, Arrived(history), h, m) != Gap
    ensures Plausible(Held(apply, history, h, m), CopyOf(apply, Arrived(history), h, m))
  {
    if history != [] {
      var init, last := history[..|history| - 1], history[|history| - 1];
      if last.Arrives? {
        PrefixGapFree(apply, Arrived(init), [last.frame], h, m);
        CopyOfPush(apply, Arrived(init), last.frame, h, m);
        ConsumerPlausible(apply, init, h, m);
        var (x, copy) := (Held(apply, init, h, m), CopyOf(apply, Arrived(init), h, m));
        if IsState(last.frame, h, m) && last.frame.body.Ops? {
          var ops := last.frame.body.ops;
          OpsKind(apply, copy, ops);
          OpsOutOfStep(apply, x, ops);
          if InStep(x, copy) { OpsInStep(apply, copy, x, ops); }
        }
      } else {
        assert Arrived(history) == Arrived(init);
        ConsumerPlausible(apply, init, h, m);
      }
    }
  }

  /**
   * The consumer's decoder is of a session that some base started; of an earlier one while the stream is in an error.
   */
  predicate Earlier(x: Consumer, copy: Copy, starts: seq<nat>) {
    && (x.Holds? ==> x.session in starts)
    && (copy.Copy? || copy.Broken? ==> starts != [] && copy.session == starts[|starts| - 1])
    && (copy.Broken? && x.Holds? ==> x.session in starts[..|starts| - 1])
  }

  lemma {:induction false} ConsumerIsEarlier(apply: Apply, history: seq<Happening>, h: nat, m: Member)
    requires CopyOf(apply, Arrived(history), h, m) != Gap
    ensures Earlier(Held(apply, history, h, m), CopyOf(apply, Arrived(history), h, m), Starts(Arrived(history), h, m))
  {
    if history != [] {
      var init, last := history[..|history| - 1], history[|history| - 1];
      if last.Arrives? {
        PrefixGapFree(apply, Arrived(init), [last.frame], h, m);
        ConsumerIsEarlier(apply, init, h, m);
        FrameIsEarlier(apply, Held(apply, init, h, m), Arrived(init), last.frame, last.hydrated, h, m);
      } else {
        assert Arrived(history) == Arrived(init);
        ConsumerIsEarlier(apply, init, h, m);
      }
    }
  }

  lemma FrameIsEarlier(apply: Apply, x: Consumer, frames: seq<Frame>, f: Frame, hydrated: bool, h: nat, m: Member)
    requires CopyOf(apply, frames + [f], h, m) != Gap
    requires Earlier(x, CopyOf(apply, frames, h, m), Starts(frames, h, m))
    ensures Earlier(After(apply, x, Arrives(f, hydrated), h, m), CopyOf(apply, frames + [f], h, m),
      Starts(frames + [f], h, m))
  {
    hide CopyOf;
    var copy := CopyOf(apply, frames, h, m);
    var starts := Starts(frames, h, m);
    CopyOfPush(apply, frames, f, h, m);
    assert (frames + [f])[..|frames + [f]| - 1] == frames;
    if IsState(f, h, m) {
      if f.body.Ops? {
        assert Starts(frames + [f], h, m) == starts + [] == starts;
        OpsKind(apply, copy, f.body.ops);
        OpsOutOfStep(apply, x, f.body.ops);
      } else {
        var more := Starts(frames + [f], h, m);
        assert more == starts + [f.body.session] && more[..|more| - 1] == starts;
      }
    } else {
      assert Starts(frames + [f], h, m) == starts + [] == starts;
    }
  }

  /**
   * Of a stream without a gap, each base a session of its own: a consumer that has not forgotten the member, and whose
   * binding has not ended, is in step with it exactly when the last base was no error.
   */
  lemma InStepUnlessErred(apply: Apply, history: seq<Happening>, h: nat, m: Member)
    requires CopyOf(apply, Arrived(history), h, m) != Gap && Distinct(Starts(Arrived(history), h, m))
    ensures var x := Held(apply, history, h, m); var copy := CopyOf(apply, Arrived(history), h, m);
      x.Absent? || x.Ended? ||
      ((InStep(x, copy) <==> !Erred(Arrived(history), h, m)) &&
       (Erred(Arrived(history), h, m) ==> copy.Broken? && (x.Holds? ==> x.session != copy.session)))
  {
    ConsumerPlausible(apply, history, h, m);
    ConsumerIsEarlier(apply, history, h, m);
    ErredIsBroken(apply, Arrived(history), h, m);
  }

  /** Ops of another session than that of its decoder lead a consumer astray; the next base brings it back. */
  lemma OpsAfterErrorLeadAstray(apply: Apply, x: Consumer, ops: seq<WireOp>)
    requires x.Holds? && ops != [] && ops[0].session != x.session
    ensures Read(apply, x, Ops(ops), true) == Astray
    ensures forall v, session :: Read(apply, Astray, Reset(v, session), true) == Holds(v, session, 0)
  {
    FirstOp(apply, x, ops);
    OpsOutOfStep(apply, Astray, ops[1..]);
  }

  lemma {:induction false} FirstOp(apply: Apply, x: Consumer, ops: seq<WireOp>)
    requires ops != []
    ensures ReadOps(apply, x, ops) == ReadOps(apply, ReadOp(apply, x, ops[0]), ops[1..])
  {
    var init := ops[..|ops| - 1];
    if init == [] {
      assert ops[1..] == [];
    } else {
      FirstOp(apply, x, init);
      assert ops[1..][..|ops[1..]| - 1] == init[1..];
    }
  }

  /** The binding never dropped the member's value, and had its first state before any error of the member arrived. */
  predicate Keeps(history: seq<Happening>, h: nat, m: Member) {
    forall i | 0 <= i < |history| ::
      history[i].Arrives? &&
      (IsState(history[i].frame, h, m) && history[i].frame.body.Error? ==> history[i].hydrated)
  }

  lemma {:induction false} KeepersHold(apply: Apply, history: seq<Happening>, h: nat, m: Member)
    requires Keeps(history, h, m)
    ensures var x := Held(apply, history, h, m);
      !x.Ended? && (CopyOf(apply, Arrived(history), h, m).Copy? ==> !x.Absent?)
  {
    if history != [] {
      var init, last := history[..|history| - 1], history[|history| - 1];
      assert forall i | 0 <= i < |init| :: init[i] == history[i];
      assert last == history[|history| - 1] && last.Arrives?;
      KeepersHold(apply, init, h, m);
      CopyOfPush(apply, Arrived(init), last.frame, h, m);
      if IsState(last.frame, h, m) && last.frame.body.Ops? {
        OpsOutOfStep(apply, Held(apply, init, h, m), last.frame.body.ops);
        var copy := CopyOf(apply, Arrived(init), h, m);
        if ReceiveOps(apply, copy, last.frame.body.ops) != Gap { OpsKind(apply, copy, last.frame.body.ops); }
      }
    }
  }
}

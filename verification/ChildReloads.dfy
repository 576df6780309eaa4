/**
  * The child side of a cross-host reload: what `ChildReloads` does with the `prepare`, `commit` and
  * `abort` frames of its parent, with a lost parent link, and with the settling of its own pending work.
  *
  * Every await of `#run` and of a rollback is a step of its own, so frames arrive between any two of them.
  */
module ChildOperations {

  import opened Streams

  /**
    * How far `#run` got. `Refused`: `beginReload` rejected (the slot was taken, or loading failed and gave
    * it back). `Unwinding`: the catch block awaits the rollback.
    */
  datatype Stage = Loading | Refused | Preparing | Prepared | Unwinding

  /** `key` tells operations apart even when the parent reuses a reload id; `link` is where the vote goes. */
  datatype Operation = Operation(
    key: nat,
    link: nat,
    id: nat,
    version: nat,
    stage: Stage,
    cancelled: bool,
    rolledBack: bool
  )

  /**
    * The effects other code can see. `Begun`: `beginReload` succeeded. `End`: `endReload`. `Rollback`: a
    * rollback that takes effect (later calls of an idempotent rollback are not logged).
    */
  datatype Act =
    | Begun(key: nat)
    | End(key: nat)
    | Commit(key: nat)
    | Rollback(key: nat)
    | Vote(key: nat, ok: bool)
    | Cancel(key: nat)

  /** A vote frame for the parent at the other end of `link`. */
  datatype Ballot = Ballot(link: nat, id: nat, ok: bool)

  /**
    * `reloading` is the host's reload slot, one boolean for everyone. `rolling` is a prepared operation
    * that was cancelled and whose rollback is pending. `other`: a reload that is not the parent's holds the
    * slot. `ballots` are the vote frames not yet on their link.
    */
  datatype Machine = Machine(
    op: Option<Operation>,
    rolling: Option<nat>,
    reloading: bool,
    other: bool,
    keys: nat,
    log: seq<Act>,
    ballots: seq<Ballot>
  )

  function Init(): Machine { Machine(None, None, false, false, 0, [], []) }

  datatype Event =
    | PrepareFrame(link: nat, id: nat, version: nat)
    | CommitFrame(id: nat)
    | AbortFrame(id: nat)
    | ParentLost
    | Loaded
    | LoadFailed
    | RefusalHandled
    | PrepareSettled(ok: bool)
    | Unwound
    | RolledBack
    | OtherBegins
    | OtherEnds

  function Did(m: Machine, a: Act): Machine { m.(log := m.log + [a]) }

  function Cast(m: Machine, ballot: Ballot): Machine { m.(ballots := m.ballots + [ballot]) }

  /** A new prepare: busy, or the slot is taken before the first await, or `beginReload` rejects. */
  function OnPrepare(m: Machine, link: nat, id: nat, version: nat): Machine {
    if m.op.Some? then Cast(m, Ballot(link, id, false))
    else
      var stage := if m.reloading then Refused else Loading;
      m.(op := Some(Operation(m.keys, link, id, version, stage, false, false)), keys := m.keys + 1, reloading := true)
  }

  /** A commit counts only for the prepared operation it names. */
  predicate Commits(m: Machine, id: nat) {
    m.op.Some? && m.op.value.id == id && m.op.value.stage.Prepared?
  }

  function OnCommit(m: Machine, id: nat): Machine {
    if Commits(m, id)
    then Did(Did(m.(op := None, reloading := false), Commit(m.op.value.key)), End(m.op.value.key))
    else m
  }

  /** `#cancel`: a prepared operation rolls back now; an earlier one unwinds when its pending work settles. */
  function CancelOperation(m: Machine): Machine
    requires m.op.Some?
  {
    var o := m.op.value;
    match o.stage
    case Prepared =>
      Did(Did(m.(op := None, rolling := Some(o.key)), Cancel(o.key)), Rollback(o.key))
    case Preparing =>
      var marked := Did(m.(op := Some(o.(cancelled := true, rolledBack := true))), Cancel(o.key));
      if o.rolledBack then marked else Did(marked, Rollback(o.key))
    case _ =>
      Did(m.(op := Some(o.(cancelled := true))), Cancel(o.key))
  }

  function OnAbort(m: Machine, id: nat): Machine {
    if m.op.Some? && m.op.value.id == id then CancelOperation(m) else m
  }

  function OnParentLost(m: Machine): Machine {
    if m.op.Some? then CancelOperation(m) else m
  }

  /** The catch block of `#run` begins: the rollback is called and awaited. */
  function StartUnwinding(m: Machine): Machine
    requires m.op.Some?
  {
    var o := m.op.value;
    var unwinding := m.(op := Some(o.(stage := Unwinding, rolledBack := true)));
    if o.rolledBack then unwinding else Did(unwinding, Rollback(o.key))
  }

  function OnLoaded(m: Machine): Machine
    requires m.op.Some?
  {
    var begun := Did(m, Begun(m.op.value.key));
    if m.op.value.cancelled then StartUnwinding(begun)
    else begun.(op := Some(m.op.value.(stage := Preparing)))
  }

  function OnPrepareSettled(m: Machine, ok: bool): Machine
    requires m.op.Some?
  {
    var o := m.op.value;
    if ok && !o.cancelled
    then Cast(Did(m.(op := Some(o.(stage := Prepared))), Vote(o.key, true)), Ballot(o.link, o.id, true))
    else StartUnwinding(m)
  }

  /** The catch block ends: no vote once cancelled. */
  function Settle(m: Machine): Machine
    requires m.op.Some?
  {
    var o := m.op.value;
    if o.cancelled then m.(op := None)
    else Cast(Did(m.(op := None), Vote(o.key, false)), Ballot(o.link, o.id, false))
  }

  function OnUnwound(m: Machine): Machine
    requires m.op.Some?
  {
    Settle(Did(m.(reloading := false), End(m.op.value.key)))
  }

  function OnRolledBack(m: Machine): Machine
    requires m.rolling.Some?
  {
    Did(m.(rolling := None, reloading := false), End(m.rolling.value))
  }

  predicate At(m: Machine, stage: Stage) { m.op.Some? && m.op.value.stage == stage }

  predicate Enabled(m: Machine, e: Event) {
    match e
    case Loaded => At(m, Loading)
    case LoadFailed => At(m, Loading)
    case RefusalHandled => At(m, Refused)
    case PrepareSettled(_) => At(m, Preparing)
    case Unwound => At(m, Unwinding)
    case RolledBack => m.rolling.Some?
    case OtherBegins => !m.reloading
    case OtherEnds => m.other
    case _ => true
  }

  function Step(m: Machine, e: Event): Machine
    requires Enabled(m, e)
  {
    match e
    case PrepareFrame(link, id, version) => OnPrepare(m, link, id, version)
    case CommitFrame(id) => OnCommit(m, id)
    case AbortFrame(id) => OnAbort(m, id)
    case ParentLost => OnParentLost(m)
    case Loaded => OnLoaded(m)
    case LoadFailed => m.(op := Some(m.op.value.(stage := Refused)), reloading := false)
    case RefusalHandled => Settle(m)
    case PrepareSettled(ok) => OnPrepareSettled(m, ok)
    case Unwound => OnUnwound(m)
    case RolledBack => OnRolledBack(m)
    case OtherBegins => m.(reloading := true, other := true)
    case OtherEnds => m.(reloading := false, other := false)
  }

  /** A run skips the events that cannot happen where it is. */
  function Run(events: seq<Event>): Machine {
    if events == [] then Init()
    else
      var before := Run(events[..|events| - 1]);
      var e := events[|events| - 1];
      if Enabled(before, e) then Step(before, e) else before
  }

  // ---------------------------------------------------------------------------------------------
  // What every run keeps

  function Times(log: seq<Act>, a: Act): nat { multiset(log)[a] }

  /** `beginReload` succeeds at most once, and its outcome is a commit or a rollback, at most one of them. */
  predicate OneOutcome(log: seq<Act>, k: nat) {
    && Times(log, Begun(k)) <= 1
    && Times(log, Commit(k)) + Times(log, Rollback(k)) <= Times(log, Begun(k))
  }

  /** `endReload` answers a successful `beginReload`, once, and only after its outcome. */
  predicate EndsOnce(log: seq<Act>, k: nat) {
    && Times(log, End(k)) <= Times(log, Begun(k))
    && Times(log, End(k)) <= Times(log, Commit(k)) + Times(log, Rollback(k))
  }

  /** What commits voted for it and was never cancelled. */
  predicate CommitIsVoted(log: seq<Act>, k: nat) {
    Commit(k) in log ==> Vote(k, true) in log && Cancel(k) !in log
  }

  predicate NoVoteOnceCancelled(log: seq<Act>) {
    forall i, j :: 0 <= i < j < |log| && log[j].Vote? ==> log[i] != Cancel(log[j].key)
  }

  ghost predicate Lawful(log: seq<Act>) {
    && NoVoteOnceCancelled(log)
    && forall k: nat :: OneOutcome(log, k) && EndsOnce(log, k) && CommitIsVoted(log, k)
  }

  /** The parent's operations hold the slot. */
  predicate Holds(m: Machine) {
    || m.rolling.Some?
    || (m.op.Some? && !m.op.value.stage.Refused?)
  }

  /** The slot is taken by exactly one owner or free. */
  predicate SlotOwned(m: Machine) {
    && (m.reloading <==> m.other || Holds(m))
    && !(m.other && Holds(m))
    && (m.rolling.Some? && m.op.Some? ==> m.op.value.stage.Refused?)
  }

  /** Something of operation `k` has yet to settle. */
  predicate Pending(m: Machine, k: nat) {
    m.rolling == Some(k) || (m.op.Some? && m.op.value.key == k)
  }

  /**
    * What a log says of one operation: how often it began, ended, committed and rolled back, whether it
    * voted for the commit, was cancelled, or voted after that.
    */
  datatype Life = Life(
    begun: nat,
    end: nat,
    commit: nat,
    rollback: nat,
    accepted: bool,
    cancelled: bool,
    late: bool
  )

  function Note(life: Life, a: Act): Life {
    match a
    case Begun(_) => life.(begun := life.begun + 1)
    case End(_) => life.(end := life.end + 1)
    case Commit(_) => life.(commit := life.commit + 1)
    case Rollback(_) => life.(rollback := life.rollback + 1)
    case Vote(_, ok) => life.(accepted := life.accepted || ok, late := life.late || life.cancelled)
    case Cancel(_) => life.(cancelled := true)
  }

  const UNBORN := Life(0, 0, 0, 0, false, false, false)

  function LifeOf(log: seq<Act>, k: nat): Life {
    if log == [] then UNBORN
    else
      var a := log[|log| - 1];
      var before := LifeOf(log[..|log| - 1], k);
      if a.key == k then Note(before, a) else before
  }

  lemma {:induction false} LifeCounts(log: seq<Act>, k: nat)
    ensures LifeOf(log, k).begun == Times(log, Begun(k))
    ensures LifeOf(log, k).end == Times(log, End(k))
    ensures LifeOf(log, k).commit == Times(log, Commit(k))
    ensures LifeOf(log, k).rollback == Times(log, Rollback(k))
  {
    if log != [] {
      LifeCounts(log[..|log| - 1], k);
      assert log == log[..|log| - 1] + [log[|log| - 1]];
    }
  }

  lemma {:induction false} LifeFlags(log: seq<Act>, k: nat)
    ensures LifeOf(log, k).accepted <==> Vote(k, true) in log
    ensures LifeOf(log, k).cancelled <==> Cancel(k) in log
    ensures !LifeOf(log, k).late ==>
      forall i, j :: 0 <= i < j < |log| && log[j].Vote? && log[j].key == k ==> log[i] != Cancel(k)
  {
    if log != [] {
      LifeFlags(log[..|log| - 1], k);
      assert log == log[..|log| - 1] + [log[|log| - 1]];
    }
  }

  function RunningLife(o: Operation): Life {
    match o.stage
    case Loading => UNBORN.(cancelled := o.cancelled)
    case Refused => UNBORN.(cancelled := o.cancelled)
    case Preparing => Life(1, 0, 0, if o.rolledBack then 1 else 0, false, o.cancelled, false)
    case Prepared => Life(1, 0, 0, 0, true, false, false)
    case Unwinding => Life(1, 0, 0, 1, false, o.cancelled, false)
  }

  /** An operation that is over: refused, or begun and ended with one outcome. */
  predicate Over(life: Life) {
    && life.begun <= 1 && life.end == life.begun
    && life.commit + life.rollback == life.begun
    && (life.commit > 0 ==> life.accepted && !life.cancelled)
    && !life.late
  }

  predicate Accounted(m: Machine, k: nat) {
    var life := LifeOf(m.log, k);
    if k >= m.keys then life == UNBORN
    else if m.op.Some? && m.op.value.key == k then life == RunningLife(m.op.value)
    else if m.rolling == Some(k) then life == Life(1, 0, 0, 1, true, true, false)
    else Over(life)
  }

  /** A rollback takes effect in the loading or preparing stage only by a cancellation. */
  predicate Staged(o: Operation) {
    match o.stage
    case Loading => !o.rolledBack
    case Refused => !o.rolledBack
    case Preparing => o.rolledBack == o.cancelled
    case Prepared => !o.rolledBack && !o.cancelled
    case Unwinding => o.rolledBack
  }

  predicate Shaped(m: Machine) {
    && SlotOwned(m)
    && (m.op.Some? ==> m.op.value.key < m.keys && Staged(m.op.value))
    && (m.rolling.Some? ==> m.rolling.value < m.keys)
    && (m.op.Some? && m.rolling.Some? ==> m.op.value.key != m.rolling.value)
  }

  ghost predicate Inv(m: Machine) {
    && Shaped(m)
    && forall k: nat :: Accounted(m, k)
  }

  lemma Noted(log: seq<Act>, a: Act, k: nat)
    ensures LifeOf(log + [a], k) == if a.key == k then Note(LifeOf(log, k), a) else LifeOf(log, k)
  {
    assert (log + [a])[..|log + [a]| - 1] == log;
  }

  lemma CommitKeepsAccount(m: Machine, id: nat, k: nat)
    requires Shaped(m) && Accounted(m, k)
    ensures Accounted(OnCommit(m, id), k)
  {
    hide LifeOf;
    if Commits(m, id) {
      var key := m.op.value.key;
      Noted(m.log, Commit(key), k);
      Noted(m.log + [Commit(key)], End(key), k);
    }
  }

  lemma CancelKeepsAccount(m: Machine, k: nat)
    requires Shaped(m) && Accounted(m, k) && m.op.Some?
    ensures Accounted(CancelOperation(m), k)
  {
    hide LifeOf;
    var key := m.op.value.key;
    Noted(m.log, Cancel(key), k);
    Noted(m.log + [Cancel(key)], Rollback(key), k);
  }

  lemma UnwindingKeepsAccount(m: Machine, k: nat)
    requires Shaped(m) && Accounted(m, k) && At(m, Preparing)
    ensures Accounted(StartUnwinding(m), k)
  {
    hide LifeOf;
    Noted(m.log, Rollback(m.op.value.key), k);
  }

  lemma LoadedKeepsAccount(m: Machine, k: nat)
    requires Shaped(m) && Accounted(m, k) && At(m, Loading)
    ensures Accounted(OnLoaded(m), k)
  {
    hide LifeOf;
    var key := m.op.value.key;
    Noted(m.log, Begun(key), k);
    Noted(m.log + [Begun(key)], Rollback(key), k);
  }

  lemma PreparedKeepsAccount(m: Machine, ok: bool, k: nat)
    requires Shaped(m) && Accounted(m, k) && At(m, Preparing)
    ensures Accounted(OnPrepareSettled(m, ok), k)
  {
    hide LifeOf, StartUnwinding;
    Noted(m.log, Vote(m.op.value.key, true), k);
    UnwindingKeepsAccount(m, k);
  }

  lemma RefusalKeepsAccount(m: Machine, k: nat)
    requires Shaped(m) && Accounted(m, k) && At(m, Refused)
    ensures Accounted(Settle(m), k)
  {
    hide LifeOf;
    Noted(m.log, Vote(m.op.value.key, false), k);
  }

  lemma UnwoundKeepsAccount(m: Machine, k: nat)
    requires Shaped(m) && Accounted(m, k) && At(m, Unwinding)
    ensures Accounted(OnUnwound(m), k)
  {
    hide LifeOf;
    var key := m.op.value.key;
    Noted(m.log, End(key), k);
    Noted(m.log + [End(key)], Vote(key, false), k);
  }

  lemma RolledBackKeepsAccount(m: Machine, k: nat)
    requires Shaped(m) && Accounted(m, k) && m.rolling.Some?
    ensures Accounted(OnRolledBack(m), k)
  {
    hide LifeOf;
    Noted(m.log, End(m.rolling.value), k);
  }

  lemma SilentStepKeepsAccount(m: Machine, e: Event, k: nat)
    requires Shaped(m) && Accounted(m, k) && Enabled(m, e)
    requires e.PrepareFrame? || e.LoadFailed? || e.OtherBegins? || e.OtherEnds?
    ensures Accounted(Step(m, e), k)
  {
    hide LifeOf;
  }

  lemma StepKeepsAccount(m: Machine, e: Event, k: nat)
    requires Shaped(m) && Accounted(m, k) && Enabled(m, e)
    ensures Accounted(Step(m, e), k)
  {
    hide LifeOf, Accounted, Shaped, CancelOperation, Settle, OnUnwound, OnRolledBack, OnCommit, OnLoaded,
        OnPrepareSettled, OnPrepare;
    match e {
      case CommitFrame(id) => CommitKeepsAccount(m, id, k);
      case AbortFrame(_) => if m.op.Some? { CancelKeepsAccount(m, k); }
      case ParentLost => if m.op.Some? { CancelKeepsAccount(m, k); }
      case Loaded => LoadedKeepsAccount(m, k);
      case RefusalHandled => RefusalKeepsAccount(m, k);
      case PrepareSettled(ok) => PreparedKeepsAccount(m, ok, k);
      case Unwound => UnwoundKeepsAccount(m, k);
      case RolledBack => RolledBackKeepsAccount(m, k);
      case _ => SilentStepKeepsAccount(m, e, k);
    }
  }

  lemma StepKeepsInv(m: Machine, e: Event)
    requires Inv(m) && Enabled(m, e)
    ensures Inv(Step(m, e))
  {
    hide Accounted;
    forall k: nat ensures Accounted(Step(m, e), k) {
      assert Accounted(m, k);
      StepKeepsAccount(m, e, k);
    }
  }

  lemma {:induction false} RunInv(events: seq<Event>)
    ensures Inv(Run(events))
  {
    if events == [] {
      assert forall k: nat :: Accounted(Init(), k);
    } else {
      RunInv(events[..|events| - 1]);
      var before := Run(events[..|events| - 1]);
      var e := events[|events| - 1];
      if Enabled(before, e) { StepKeepsInv(before, e); }
    }
  }

  /**
    * Whatever order frames, link losses and settling work come in: an operation never both commits and
    * rolls back, casts no vote once cancelled, and each successful `beginReload` meets at most one
    * `endReload`, after its outcome; exactly one once nothing of the operation is pending.
    */
  lemma ReloadsAreLawful(events: seq<Event>)
    ensures Lawful(Run(events).log)
    ensures SlotOwned(Run(events))
    ensures forall k: nat ::
      Pending(Run(events), k) || Times(Run(events).log, End(k)) == Times(Run(events).log, Begun(k))
  {
    RunInv(events);
    var m := Run(events);
    forall k: nat
      ensures OneOutcome(m.log, k) && EndsOnce(m.log, k) && CommitIsVoted(m.log, k)
      ensures Pending(m, k) || Times(m.log, End(k)) == Times(m.log, Begun(k))
    {
      assert Accounted(m, k);
      LifeCounts(m.log, k);
      LifeFlags(m.log, k);
      assert Commit(k) in m.log ==> Times(m.log, Commit(k)) > 0;
    }
    forall i, j | 0 <= i < j < |m.log| && m.log[j].Vote?
      ensures m.log[i] != Cancel(m.log[j].key)
    {
      assert Accounted(m, m.log[j].key);
      LifeFlags(m.log, m.log[j].key);
    }
  }
}

/** `ChildReloads` and the host fields it works on, updated in place. */
module ChildReloading {

  import opened Streams
  import opened ChildOperations

  datatype Frame = Prepare(id: nat, version: nat) | Commit(id: nat) | Abort(id: nat)

  function EventOf(link: nat, frame: Frame): Event {
    match frame
    case Prepare(id, version) => PrepareFrame(link, id, version)
    case Commit(id) => CommitFrame(id)
    case Abort(id) => AbortFrame(id)
  }

  class ChildReloads {
    var operation: Option<Operation>
    var rolling: Option<nat>
    var reloading: bool
    var other: bool
    var keys: nat
    var log: seq<Act>
    var ballots: seq<Ballot>
    // every event so far
    ghost var history: seq<Event>

    constructor ()
      ensures Valid() && State() == Init() && history == []
    {
      operation, rolling, reloading, other, keys, log, ballots := None, None, false, false, 0, [], [];
      history := [];
    }

    /** The fields are those of the run of all events so far: what is proved of runs holds of the object. */
    ghost predicate Valid()
      reads this
    {
      State() == Run(history)
    }

    ghost function State(): Machine
      reads this
    {
      Machine(operation, rolling, reloading, other, keys, log, ballots)
    }

    method Handle(link: nat, frame: Frame)
      modifies this
      ensures State() == Step(old(State()), EventOf(link, frame))
    {
      if frame.Prepare? {
        if operation.Some? {
          ballots := ballots + [Ballot(link, frame.id, false)];
          return;
        }
        var stage := if reloading then Refused else Loading;
        operation := Some(Operation(keys, link, frame.id, frame.version, stage, false, false));
        keys := keys + 1;
        reloading := true;
        return;
      }
      if operation.None? || operation.value.id != frame.id {
        return;
      }
      if frame.Abort? {
        Cancel();
        return;
      }
      if operation.value.stage != Prepared {
        return;
      }
      var key := operation.value.key;
      operation := None;
      log := log + [Act.Commit(key)];
      EndReload(key);
    }

    method LoseParent()
      modifies this
      ensures State() == Step(old(State()), ParentLost)
    {
      if operation.Some? {
        Cancel();
      }
    }

    method Cancel()
      requires operation.Some?
      modifies this
      ensures State() == CancelOperation(old(State()))
    {
      var o := operation.value;
      log := log + [Act.Cancel(o.key)];
      if o.stage == Prepared {
        operation := None;
        rolling := Some(o.key);
        log := log + [Rollback(o.key)];
        return;
      }
      operation := Some(o.(cancelled := true));
      if o.stage == Preparing {
        RollBack();
      }
    }

    /** `Reload.rollback`: only the first call does anything. */
    method RollBack()
      requires operation.Some?
      modifies this
      ensures State() == (var o := old(operation).value;
                          var marked := old(State()).(op := Some(o.(rolledBack := true)));
                          if o.rolledBack then marked else Did(marked, Rollback(o.key)))
    {
      var o := operation.value;
      if o.rolledBack {
        return;
      }
      operation := Some(o.(rolledBack := true));
      log := log + [Rollback(o.key)];
    }

    method EndReload(key: nat)
      modifies this
      ensures State() == Did(old(State()).(reloading := false), End(key))
    {
      reloading := false;
      log := log + [End(key)];
    }

    /** `#run` continues once `beginReload` settles. */
    method FinishLoading(ok: bool)
      requires At(State(), Loading)
      modifies this
      ensures State() == Step(old(State()), if ok then Loaded else LoadFailed)
    {
      var o := operation.value;
      if !ok {
        reloading := false;
        operation := Some(o.(stage := Refused));
        return;
      }
      log := log + [Begun(o.key)];
      if o.cancelled {
        Unwind();
        return;
      }
      operation := Some(o.(stage := Preparing));
    }

    /** `#run` continues once `prepare` settles. */
    method FinishPreparing(ok: bool)
      requires At(State(), Preparing)
      modifies this
      ensures State() == Step(old(State()), PrepareSettled(ok))
    {
      var o := operation.value;
      if !ok || o.cancelled {
        Unwind();
        return;
      }
      operation := Some(o.(stage := Prepared));
      log := log + [Vote(o.key, true)];
      ballots := ballots + [Ballot(o.link, o.id, true)];
    }

    /** The catch block up to its await. */
    method Unwind()
      requires operation.Some?
      modifies this
      ensures State() == StartUnwinding(old(State()))
    {
      RollBack();
      operation := Some(operation.value.(stage := Unwinding));
    }

    /** The catch block after its await, or all of it when there is no reload to roll back. */
    method FinishUnwinding()
      requires At(State(), Unwinding) || At(State(), Refused)
      modifies this
      ensures State() == Step(old(State()), if old(At(State(), Unwinding)) then Unwound else RefusalHandled)
    {
      var o := operation.value;
      if o.stage == Unwinding {
        EndReload(o.key);
      }
      operation := None;
      if !o.cancelled {
        log := log + [Vote(o.key, false)];
        ballots := ballots + [Ballot(o.link, o.id, false)];
      }
    }

    /** The rollback of a cancelled prepared operation settles. */
    method FinishRollback()
      requires rolling.Some?
      modifies this
      ensures State() == Step(old(State()), RolledBack)
    {
      var key := rolling.value;
      rolling := None;
      EndReload(key);
    }

    /** A frame of the parent, a lost link, or pending work that settles; nothing happens if it cannot. */
    method On(e: Event)
      requires Valid()
      modifies this
      ensures Valid() && history == old(history) + [e]
      ensures State() == if Enabled(old(State()), e) then Step(old(State()), e) else old(State())
    {
      hide Run, Step;
      RunPush(history, e);
      ghost var before := history;
      if Possible(e) { Dispatch(e); }
      history := before + [e];
    }

    predicate Possible(e: Event)
      reads this
      ensures Possible(e) <==> Enabled(State(), e)
    {
      match e
      case Loaded => operation.Some? && operation.value.stage == Loading
      case LoadFailed => operation.Some? && operation.value.stage == Loading
      case RefusalHandled => operation.Some? && operation.value.stage == Refused
      case PrepareSettled(_) => operation.Some? && operation.value.stage == Preparing
      case Unwound => operation.Some? && operation.value.stage == Unwinding
      case RolledBack => rolling.Some?
      case OtherBegins => !reloading
      case OtherEnds => other
      case _ => true
    }

    method Dispatch(e: Event)
      requires Enabled(State(), e)
      modifies this
      ensures State() == Step(old(State()), e)
    {
      match e
      case PrepareFrame(link, id, version) => Handle(link, Prepare(id, version));
      case CommitFrame(id) => Handle(0, Frame.Commit(id));
      case AbortFrame(id) => Handle(0, Abort(id));
      case ParentLost => LoseParent();
      case Loaded => FinishLoading(true);
      case LoadFailed => FinishLoading(false);
      case RefusalHandled => FinishUnwinding();
      case PrepareSettled(ok) => FinishPreparing(ok);
      case Unwound => FinishUnwinding();
      case RolledBack => FinishRollback();
      case OtherBegins => reloading, other := true, true;
      case OtherEnds => reloading, other := false, false;
    }

    /**
      * At every moment of the object's life: no operation both commits and rolls back, none votes once
      * cancelled, and one that is over gave the slot back exactly as often as it took it.
      */
    lemma LawfulAtAllTimes(k: nat)
      requires Valid()
      ensures Lawful(log) && (reloading <==> other || Holds(State()))
      ensures rolling == Some(k) || (operation.Some? && operation.value.key == k) ||
        Times(log, End(k)) == Times(log, Begun(k))
    {
      ReloadsAreLawful(history);
      assert Pending(Run(history), k) || Times(log, End(k)) == Times(log, Begun(k));
    }
  }

  lemma RunPush(events: seq<Event>, e: Event)
    ensures var before := Run(events);
      Run(events + [e]) == if Enabled(before, e) then Step(before, e) else before
  {
    assert (events + [e])[..|events + [e]| - 1] == events;
  }
}

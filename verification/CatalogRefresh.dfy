/**
  * Refreshing the model catalog of one provider: generations supersede each other, and each publication
  * of a refresh waits for the ones queued before it. Store operations take time, so every await is a step
  * of its own, and refreshes, aborts and provider changes come between any two of them.
  */
module CatalogRefresh {

  import opened Streams

  type Content(==, !new)

  /** What to persist: nothing, a deletion (`None`), or models. */
  datatype Publication = MemoryOnly | Persist(content: Option<Content>)

  /**
    * A publication in the chain. `Waiting` for the ones before it, `Mutating` the store, or `Done` with the
    * outcome its promise has.
    */
  datatype Stage = Waiting | Mutating | Done(outcome: Outcome)

  datatype Outcome = Published | Skipped | Failed

  datatype Job = Job(generation: nat, publication: Publication, stage: Stage)

  /** What others can see: a store mutation starts or ends, or the provider's models in memory change. */
  datatype Act =
    | MutationStarts(generation: nat)
    | MutationEnds(generation: nat, ok: bool)
    | Updates(generation: nat)

  /**
    * `generation`: of the latest refresh or provider change. `aborted`: the generations whose signal is
    * aborted. `controller`: the generation of the refresh that could be aborted by superseding it.
    */
  datatype Provider = Provider(
    generation: nat,
    controller: Option<nat>,
    aborted: set<nat>,
    chain: seq<Job>,
    log: seq<Act>
  )

  const NEW := Provider(0, None, {}, [], [])

  datatype Event =
    | Supersede
    | Begin
    | FinishRefresh(generation: nat)
    | CallerAborts(generation: nat)
    | Publish(generation: nat, publication: Publication)
    | StartJob(i: nat)
    | EndMutation(i: nat, ok: bool)

  /** `supersedeProviderRefresh`: a new generation, and the running refresh aborts. */
  function Superseded(p: Provider): Provider {
    p.(generation := p.generation + 1,
       controller := None,
       aborted := if p.controller.Some? then p.aborted + {p.controller.value} else p.aborted)
  }

  predicate Finished(p: Provider, i: nat) { i < |p.chain| && p.chain[i].stage.Done? }

  predicate Current(p: Provider, generation: nat) { generation == p.generation && generation !in p.aborted }

  predicate Enabled(p: Provider, e: Event) {
    match e
    // A publication comes from a refresh that began.
    case Publish(generation, _) => 0 < generation <= p.generation
    case StartJob(i) => i < |p.chain| && p.chain[i].stage.Waiting? && (i == 0 || Finished(p, i - 1))
    case EndMutation(i, _) => i < |p.chain| && p.chain[i].stage.Mutating?
    case _ => true
  }

  function At(p: Provider, i: nat, stage: Stage): Provider
    requires i < |p.chain|
  {
    p.(chain := p.chain[i := p.chain[i].(stage := stage)])
  }

  function Logged(p: Provider, a: Act): Provider { p.(log := p.log + [a]) }

  /** The second check, then the update. */
  function Conclude(p: Provider, i: nat): Provider
    requires i < |p.chain|
  {
    if Current(p, p.chain[i].generation)
    then Logged(At(p, i, Done(Published)), Updates(p.chain[i].generation))
    else At(p, i, Done(Skipped))
  }

  function Step(p: Provider, e: Event): Provider
    requires Enabled(p, e)
  {
    match e
    case Supersede => Superseded(p)
    case Begin => var s := Superseded(p); s.(controller := Some(s.generation))
    case FinishRefresh(generation) => if p.controller == Some(generation) then p.(controller := None) else p
    case CallerAborts(generation) => p.(aborted := p.aborted + {generation})
    case Publish(generation, publication) => p.(chain := p.chain + [Job(generation, publication, Waiting)])
    case StartJob(i) =>
      var job := p.chain[i];
      if !Current(p, job.generation) then At(p, i, Done(Skipped))
      else if job.publication.MemoryOnly? then Conclude(p, i)
      else Logged(At(p, i, Mutating), MutationStarts(job.generation))
    case EndMutation(i, ok) =>
      var ended := Logged(p, MutationEnds(p.chain[i].generation, ok));
      if ok then Conclude(ended, i) else At(ended, i, Done(Failed))
  }

  function Run(events: seq<Event>): Provider {
    if events == [] then NEW
    else
      var before := Run(events[..|events| - 1]);
      var e := events[|events| - 1];
      if Enabled(before, e) then Step(before, e) else before
  }

  // ---------------------------------------------------------------------------------------------

  /** Mutations alternate start and end, each end of the one that started: they never overlap. */
  function Busy(log: seq<Act>): Option<Option<nat>>
  {
    if log == [] then Some(None)
    else
      var before := Busy(log[..|log| - 1]);
      if before.None? then None
      else
        match log[|log| - 1]
        case MutationStarts(g) => if before.value.None? then Some(Some(g)) else None
        case MutationEnds(g, _) => if before.value == Some(g) then Some(None) else None
        case Updates(_) => if before.value.None? then before else None
  }

  /** No mutation, start or update is of an older generation than anything logged before it. */
  predicate Nondecreasing(log: seq<Act>) {
    forall i, j :: 0 <= i < j < |log| ==> log[i].generation <= log[j].generation
  }

  /** At most one job mutates the store; before it all are done, after it all wait. */
  predicate InOrder(chain: seq<Job>) {
    forall i, j :: 0 <= i < j < |chain| && !chain[j].stage.Waiting? ==> chain[i].stage.Done?
  }

  function Mutators(chain: seq<Job>): set<nat> { set i | 0 <= i < |chain| && chain[i].stage.Mutating? }

  predicate NobodyMutates(chain: seq<Job>) { forall i :: 0 <= i < |chain| ==> !chain[i].stage.Mutating? }

  predicate SomebodyMutates(chain: seq<Job>, g: nat) {
    exists i :: 0 <= i < |chain| && chain[i].stage.Mutating? && chain[i].generation == g
  }

  /** Nothing logged is of a newer generation than `g`. */
  predicate UpTo(log: seq<Act>, g: nat) { forall i :: 0 <= i < |log| ==> log[i].generation <= g }

  ghost predicate Inv(p: Provider) {
    && InOrder(p.chain) && Nondecreasing(p.log) && UpTo(p.log, p.generation)
    && match Busy(p.log)
       case None => false
       case Some(None) => NobodyMutates(p.chain)
       case Some(Some(g)) => SomebodyMutates(p.chain, g) && UpTo(p.log, g) && g <= p.generation
  }

  lemma BusyAppend(log: seq<Act>, a: Act)
    ensures Busy(log + [a]) ==
      var before := Busy(log);
      if before.None? then None
      else
        match a
        case MutationStarts(g) => if before.value.None? then Some(Some(g)) else None
        case MutationEnds(g, _) => if before.value == Some(g) then Some(None) else None
        case Updates(_) => if before.value.None? then before else None
  {
    assert (log + [a])[..|log|] == log;
  }

  /** One more act of a generation no older than what is logged. */
  lemma UpToAppend(log: seq<Act>, a: Act)
    requires Nondecreasing(log) && UpTo(log, a.generation)
    ensures Nondecreasing(log + [a])
    ensures forall g: nat :: a.generation <= g ==> UpTo(log + [a], g)
  {
    assert forall i :: 0 <= i < |log| ==> (log + [a])[i] == log[i];
  }

  /** The job at `i` takes a stage its place allows. */
  lemma StageKeepsOrder(chain: seq<Job>, i: nat, stage: Stage)
    requires InOrder(chain) && i < |chain| && !stage.Waiting? && (i > 0 ==> chain[i - 1].stage.Done?)
    requires forall j :: i < j < |chain| ==> chain[j].stage.Waiting?
    ensures InOrder(chain[i := chain[i].(stage := stage)])
    ensures stage.Done? ==> NobodyMutates(chain[i := chain[i].(stage := stage)])
    ensures stage.Mutating? ==> SomebodyMutates(chain[i := chain[i].(stage := stage)], chain[i].generation)
  {
    var next := chain[i := chain[i].(stage := stage)];
    assert next[i].stage == stage && forall j :: 0 <= j < |chain| && j != i ==> next[j] == chain[j];
    if i > 0 { assert forall j :: 0 <= j < i - 1 ==> chain[j].stage.Done?; }
  }

  /** A job that may start, or that mutates the store, is the first not done, and what follows it waits. */
  lemma FirstNotDone(chain: seq<Job>, i: nat)
    requires InOrder(chain) && i < |chain| && (i == 0 || chain[i - 1].stage.Done?)
    requires chain[i].stage.Waiting? || chain[i].stage.Mutating?
    ensures forall j :: i < j < |chain| ==> chain[j].stage.Waiting?
    ensures chain[i].stage.Waiting? ==> NobodyMutates(chain)
  {
    if i > 0 { assert forall j :: 0 <= j < i - 1 ==> chain[j].stage.Done?; }
  }

  /** No mutation is under way when a job may start. */
  lemma NoMutationUnderWay(p: Provider, i: nat)
    requires Inv(p) && Enabled(p, StartJob(i))
    ensures Busy(p.log) == Some(None)
  {
    FirstNotDone(p.chain, i);
  }

  lemma StartKeeps(p: Provider, i: nat)
    requires Inv(p) && Enabled(p, StartJob(i))
    ensures Inv(Step(p, StartJob(i)))
  {
    hide Busy, InOrder, Nondecreasing, NobodyMutates, SomebodyMutates, UpTo;
    var g := p.chain[i].generation;
    NoMutationUnderWay(p, i);
    FirstNotDone(p.chain, i);
    StageKeepsOrder(p.chain, i, Mutating);
    StageKeepsOrder(p.chain, i, Done(Skipped));
    StageKeepsOrder(p.chain, i, Done(Published));
    if g == p.generation {
      UpToAppend(p.log, Updates(g));
      UpToAppend(p.log, MutationStarts(g));
      BusyAppend(p.log, Updates(g));
      BusyAppend(p.log, MutationStarts(g));
    }
  }

  /** The mutation under way is of the job that is mutating, after everything logged. */
  lemma TheMutator(p: Provider, i: nat)
    requires Inv(p) && i < |p.chain| && p.chain[i].stage.Mutating?
    ensures Busy(p.log) == Some(Some(p.chain[i].generation))
    ensures UpTo(p.log, p.chain[i].generation) && p.chain[i].generation <= p.generation
    ensures (i == 0 || p.chain[i - 1].stage.Done?) && forall j :: 0 <= j < |p.chain| && j != i ==>
      !p.chain[j].stage.Mutating?
  {
  }

  lemma EndKeeps(p: Provider, i: nat, ok: bool)
    requires Inv(p) && Enabled(p, EndMutation(i, ok))
    ensures Inv(Step(p, EndMutation(i, ok)))
  {
    var g := p.chain[i].generation;
    TheMutator(p, i);
    FirstNotDone(p.chain, i);
    StageKeepsOrder(p.chain, i, Done(Failed));
    StageKeepsOrder(p.chain, i, Done(Skipped));
    StageKeepsOrder(p.chain, i, Done(Published));
    hide Busy, InOrder, Nondecreasing, NobodyMutates, SomebodyMutates, UpTo;
    var ended := p.log + [MutationEnds(g, ok)];
    BusyAppend(p.log, MutationEnds(g, ok));
    BusyAppend(ended, Updates(g));
    UpToAppend(p.log, MutationEnds(g, ok));
    UpToAppend(ended, Updates(g));
  }

  lemma StepKeeps(p: Provider, e: Event)
    requires Inv(p) && Enabled(p, e)
    ensures Inv(Step(p, e))
  {
    match e {
      case StartJob(i) => StartKeeps(p, i);
      case EndMutation(i, ok) => EndKeeps(p, i, ok);
      case Publish(g, publication) =>
        var next := Step(p, e);
        assert forall i :: 0 <= i < |p.chain| ==> next.chain[i] == p.chain[i];
        hide Busy;
      case _ => hide Busy;
    }
  }

  lemma {:induction false} RunKeeps(events: seq<Event>)
    ensures Inv(Run(events))
  {
    if events == [] {
      assert Busy(NEW.log) == Some(None);
    } else {
      RunKeeps(events[..|events| - 1]);
      var before := Run(events[..|events| - 1]);
      var e := events[|events| - 1];
      if Enabled(before, e) { StepKeeps(before, e); }
    }
  }

  /**
    * Under every interleaving the store mutations of a provider never overlap, and they and the updates come
    * in nondecreasing generation order: nothing a superseded refresh does follows anything newer.
    */
  lemma MutationsNeverOverlap(events: seq<Event>)
    ensures Busy(Run(events).log).Some?
    ensures Nondecreasing(Run(events).log)
    ensures |Mutators(Run(events).chain)| <= 1
  {
    RunKeeps(events);
    var p := Run(events);
    if Mutators(p.chain) != {} {
      var i :| i in Mutators(p.chain);
      TheMutator(p, i);
      assert Mutators(p.chain) == {i};
    }
  }

  /** An update runs only while its generation is current and its signal not aborted. */
  lemma UpdatesAreCurrent(p: Provider, e: Event)
    requires Enabled(p, e)
    ensures Step(p, e).log != p.log && Step(p, e).log[|Step(p, e).log| - 1].Updates? ==>
      Current(p, Step(p, e).log[|Step(p, e).log| - 1].generation)
  {
  }

  /** Once superseded, a generation never starts a mutation or updates again. */
  lemma {:induction false} SupersededIsSilent(events: seq<Event>, later: seq<Event>, g: nat)
    requires g < Run(events).generation
    ensures Run(events).log <= Run(events + later).log
    ensures forall i ::
      |Run(events).log| <= i < |Run(events + later).log| && !Run(events + later).log[i].MutationEnds? ==>
        Run(events + later).log[i].generation > g
    ensures Run(events + later).generation >= Run(events).generation
  {
    if later == [] {
      assert events + later == events;
    } else {
      var init := later[..|later| - 1];
      assert (events + later)[..|events + later| - 1] == events + init;
      SupersededIsSilent(events, init, g);
    }
  }
}

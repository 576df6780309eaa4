/** What every run of the cluster keeps, whatever links die and whenever hosts connect. */
module ClusterSafety {

  import opened Streams
  import opened Cluster
  import C = ChildOperations

  // ---------------------------------------------------------------------------------------------
  // The invariant

  ghost predicate ServerOk(s: Server) {
    && 0 < s.current <= s.versions
    && s.retired < Oldest(s)
    && (s.previous.Some? ==> s.previous.value < s.current)
    && match s.phase
       case Loading(version, _) => s.current < version
       case Preparing(id, version, _, local) =>
         s.current < version && id < s.nextId && s.previous.None? && (local.Ready? ==> version <= s.versions)
       case _ => true
  }

  /** A code version the server committed. */
  predicate Known(s: Server, version: nat) {
    version == s.current || s.previous == Some(version) || version <= s.retired
  }

  predicate PreparedOp(ch: Child) { ch.machine.op.Some? && ch.machine.op.value.stage.Prepared? }

  ghost predicate ChildOk(s: Server, ch: Child) {
    && Known(s, ch.current)
    && (ch.previous.Some? ==> ch.previous.value < ch.current && Known(s, ch.previous.value))
    && ch.allowed < Oldest(s)
    && ch.machine.ballots == []
    && (PreparedOp(ch) ==> ch.previous.None? && ch.current < ch.machine.op.value.version)
    && (ch.link.None? ==> ch.inbox == [])
  }

  predicate Reloading(f: Down) { f.Prepare? || f.Commit? || f.Abort? }

  predicate Quiet(inbox: seq<Down>) { forall i :: 0 <= i < |inbox| ==> !Reloading(inbox[i]) }

  predicate CommitPending(inbox: seq<Down>) { exists i :: 0 <= i < |inbox| && inbox[i].Commit? }

  /** The code version the child runs once it read what is on its way. */
  function Effective(ch: Child): nat {
    if CommitPending(ch.inbox) && PreparedOp(ch) then ch.machine.op.value.version else ch.current
  }

  /** The code version the child will retain as its previous one by the time it reads a later prepare. */
  function Retained(ch: Child): Option<nat> {
    if CommitPending(ch.inbox) then Some(ch.current) else ch.previous
  }

  /** By the `n`th frame the child may retire `version`. */
  predicate Permitted(allowed: nat, inbox: seq<Down>, n: nat, version: nat)
    requires n <= |inbox|
  {
    version <= allowed || exists i :: 0 <= i < n && inbox[i].Retire? && version <= inbox[i].version
  }

  /** Frame `i` on its way to the child will find the child as it should. */
  ghost predicate FrameOk(s: Server, ch: Child, i: nat)
    requires i < |ch.inbox|
  {
    match ch.inbox[i]
    case Commit(id) => C.Commits(ch.machine, id) && Quiet(ch.inbox[..i]) && Known(s, ch.machine.op.value.version)
    case Retire(version) => version < Oldest(s)
    case Root(version) =>
      && ch.allowed < version
      && (forall j :: 0 <= j < i && ch.inbox[j].Retire? ==> ch.inbox[j].version < version)
      && (version <= ch.current ||
        (CommitPending(ch.inbox[..i]) && PreparedOp(ch) && version <= ch.machine.op.value.version))
    case Prepare(id, _) =>
      && id < s.nextId
      && (Retained(ch).Some? ==> Permitted(ch.allowed, ch.inbox, i, Retained(ch).value))
    case Abort(_) => true
  }

  ghost predicate InboxOk(s: Server, ch: Child) { forall i :: 0 <= i < |ch.inbox| ==> FrameOk(s, ch, i) }

  predicate OpOf(ch: Child, l: ConnId) { ch.machine.op.Some? && ch.machine.op.value.link == l }

  /** The child has read the prepare of transaction `id`, and if it voted for it, it still holds it prepared. */
  predicate Consumed(l: ConnId, k: Conn, ch: Child, id: nat, version: nat) {
    && Quiet(ch.inbox)
    && (OpOf(ch, l) && ch.machine.op.value.id == id ==> ch.machine.op.value.version == version)
    && (k.txn.Voted? || Vote(id, true) in k.inbox ==>
          OpOf(ch, l) && ch.machine.op.value.id == id && ch.machine.op.value.stage.Prepared?)
  }

  /** Frame `n` is the prepare of transaction `id`, the last reload frame on its way and the newest. */
  predicate LastPrepare(inbox: seq<Down>, n: nat, id: nat, version: nat) {
    && n < |inbox| && inbox[n] == Prepare(id, version)
    && (forall i :: 0 <= i < n && inbox[i].Prepare? ==> inbox[i].id < id)
    && Quiet(inbox[n + 1..])
  }

  ghost predicate InFlight(l: ConnId, k: Conn, ch: Child, id: nat, version: nat) {
    && (exists n: nat :: LastPrepare(ch.inbox, n, id, version))
    && (OpOf(ch, l) ==> ch.machine.op.value.id < id)
    && Vote(id, true) !in k.inbox
    && !k.txn.Voted?
  }

  ghost predicate TxnOk(s: Server, l: ConnId, k: Conn, ch: Child) {
    k.txn.NoTxn? || (
      && k.txn.id < s.nextId
      && (Consumed(l, k, ch, k.txn.id, k.txn.version) || InFlight(l, k, ch, k.txn.id, k.txn.version)))
  }

  /** Before its hello counts, nothing was asked of the child over this link. */
  predicate Untouched(l: ConnId, k: Conn, ch: Child) {
    k.txn.NoTxn? && Quiet(ch.inbox) && !OpOf(ch, l)
  }

  predicate Votes(inbox: seq<Up>) { forall i :: 0 <= i < |inbox| ==> inbox[i].Vote? }

  ghost predicate StandingOk(s: Server, l: ConnId, k: Conn, ch: Child) {
    match k.standing
    case Fresh => Untouched(l, k, ch) && k.inbox == [Hello(ch.current)]
    case Deferred(version) => Untouched(l, k, ch) && version == ch.current && s.phase != Idle && Votes(k.inbox)
    case Behind => Votes(k.inbox) && k.peer == Effective(ch) && (k.txn.NoTxn? || Known(s, k.txn.version))
    case Synced =>
      && Votes(k.inbox) && k.peer == Effective(ch) == s.current
      && Permitted(ch.allowed, ch.inbox, |ch.inbox|, s.retired)
  }

  /** What the server's own reload asks of the connection. */
  predicate PhaseOk(s: Server, l: ConnId, k: Conn) {
    match s.phase
    case Loading(_, synced) => (k.standing.Synced? <==> l in synced) && (k.standing.Synced? ==> k.txn.NoTxn?)
    case Preparing(id, version, participants, _) =>
      && (k.standing.Synced? <==> l in participants)
      && (k.standing.Synced? ==> !k.txn.NoTxn? && k.txn.id == id && k.txn.version == version)
    case _ => k.standing.Synced? ==> k.txn.NoTxn?
  }

  /** Ids of this link's operations and votes are of prepares that were sent. */
  predicate IdsOk(s: Server, l: ConnId, ch: Child) {
    OpOf(ch, l) ==> ch.machine.op.value.id < s.nextId
  }

  predicate VoteIdsOk(s: Server, k: Conn) {
    forall i :: 0 <= i < |k.inbox| && k.inbox[i].Vote? ==> k.inbox[i].id < s.nextId
  }

  ghost predicate ConnOk(s: Server, l: ConnId, k: Conn, ch: Child) {
    StandingOk(s, l, k, ch) && TxnOk(s, l, k, ch) && PhaseOk(s, l, k) && IdsOk(s, l, ch) && VoteIdsOk(s, k)
  }

  ghost predicate PairOk(s: Server, l: ConnId, k: Conn, ch: Child) {
    ch.link == Some(l) && ChildOk(s, ch) && InboxOk(s, ch) && (k.isOpen ==> ConnOk(s, l, k, ch))
  }

  ghost predicate HostOk(t: World, c: ChildId)
    requires c in t.children
  {
    var ch := t.children[c];
    && (ch.machine.op.Some? ==> ch.machine.op.value.link in t.conns)
    && match ch.link
       case None => ChildOk(t.server, ch)
       case Some(l) => l in t.conns && t.conns[l].child == c && PairOk(t.server, l, t.conns[l], ch)
  }

  /** Whom the server's reload counts on is a connection it has. */
  predicate KnownConns(t: World) {
    match t.server.phase
    case Loading(_, synced) => synced <= t.conns.Keys
    case Preparing(_, _, participants, _) => participants <= t.conns.Keys
    case _ => true
  }

  ghost predicate Inv(t: World) {
    ServerOk(t.server) && KnownConns(t) && forall c :: c in t.children ==> HostOk(t, c)
  }

  // ---------------------------------------------------------------------------------------------
  // Frames appended to what is on its way

  function Sent(ch: Child, f: Down): Child { ch.(inbox := ch.inbox + [f]) }

  lemma AppendFacts(inbox: seq<Down>, f: Down)
    ensures CommitPending(inbox + [f]) <==> CommitPending(inbox) || f.Commit?
    ensures Quiet(inbox + [f]) <==> Quiet(inbox) && !Reloading(f)
  {
    var all := inbox + [f];
    assert all[|inbox|] == f;
    assert forall i :: 0 <= i < |inbox| ==> all[i] == inbox[i];
  }

  lemma PermittedAppend(allowed: nat, inbox: seq<Down>, f: Down, n: nat, version: nat)
    requires n <= |inbox|
    ensures Permitted(allowed, inbox, n, version) ==> Permitted(allowed, inbox + [f], n, version)
    ensures Permitted(allowed, inbox, |inbox|, version) || (f.Retire? && version <= f.version) ==>
      Permitted(allowed, inbox + [f], |inbox| + 1, version)
  {
    var all := inbox + [f];
    assert all[|inbox|] == f;
    assert forall i :: 0 <= i < |inbox| ==> all[i] == inbox[i];
  }

  lemma InboxAppend(s: Server, ch: Child, f: Down)
    requires InboxOk(s, ch)
    requires f.Commit? ==> Quiet(ch.inbox)
    requires FrameOk(s, Sent(ch, f), |ch.inbox|)
    ensures InboxOk(s, Sent(ch, f))
  {
    var next := Sent(ch, f);
    AppendFacts(ch.inbox, f);
    forall i | 0 <= i < |ch.inbox| ensures FrameOk(s, next, i) {
      assert FrameOk(s, ch, i);
      assert next.inbox[i] == ch.inbox[i] && next.inbox[..i] == ch.inbox[..i];
      assert forall j :: 0 <= j < i ==> next.inbox[j] == ch.inbox[j];
      if ch.inbox[i].Prepare? {
        assert !f.Commit?;
        if Retained(ch).Some? { PermittedAppend(ch.allowed, ch.inbox, f, i, Retained(ch).value); }
      }
    }
  }

  /** The server moves on: what it committed and retired stays so. */
  ghost predicate Grows(s: Server, next: Server) {
    && (forall v: nat :: Known(s, v) ==> Known(next, v))
    && Oldest(s) <= Oldest(next)
    && s.nextId <= next.nextId
    && s.retired <= next.retired
  }

  lemma ServerGrows(s: Server, conns: map<ConnId, Conn>, e: ServerEvent)
    requires ServerOk(s) && Timely(s, e)
    ensures ServerOk(ServerNext(s, conns, e)) && Grows(s, ServerNext(s, conns, e))
  {
  }

  lemma InboxGrows(s: Server, next: Server, ch: Child)
    requires InboxOk(s, ch) && Grows(s, next)
    ensures InboxOk(next, ch)
  {
    forall i | 0 <= i < |ch.inbox| ensures FrameOk(next, ch, i) {
      assert FrameOk(s, ch, i);
    }
  }

  lemma ChildGrows(s: Server, next: Server, ch: Child)
    requires ChildOk(s, ch) && Grows(s, next)
    ensures ChildOk(next, ch)
  {
  }

  // ---------------------------------------------------------------------------------------------
  // What the server sends

  lemma InFlightQuietly(l: ConnId, k: Conn, ch: Child, f: Down, id: nat, version: nat)
    requires !Reloading(f)
    requires InFlight(l, k, ch, id, version)
    ensures InFlight(l, k, Sent(ch, f), id, version)
  {
    var n: nat :| LastPrepare(ch.inbox, n, id, version);
    var next := Sent(ch, f).inbox;
    AppendFacts(ch.inbox[n + 1..], f);
    assert next[n + 1..] == ch.inbox[n + 1..] + [f];
    assert LastPrepare(next, n, id, version);
  }

  /** A frame that is not part of a reload changes nothing of the connection's business. */
  lemma QuietFrameKeepsConn(s: Server, l: ConnId, k: Conn, ch: Child, f: Down)
    requires ConnOk(s, l, k, ch) && !Reloading(f)
    ensures ConnOk(s, l, k, Sent(ch, f))
  {
    hide LastPrepare, PhaseOk, VoteIdsOk, Known, ServerOk;
    AppendFacts(ch.inbox, f);
    PermittedAppend(ch.allowed, ch.inbox, f, |ch.inbox|, s.retired);
    if !k.txn.NoTxn? && InFlight(l, k, ch, k.txn.id, k.txn.version) {
      InFlightQuietly(l, k, ch, f, k.txn.id, k.txn.version);
    }
  }

  /** A new prepare is the last reload frame on its way, and newer than everything the child knows. */
  lemma PrepareFlies(s: Server, l: ConnId, k: Conn, ch: Child, version: nat)
    requires InboxOk(s, ch) && IdsOk(s, l, ch) && VoteIdsOk(s, k)
    ensures InFlight(l, k.(txn := Awaiting(s.nextId, version)), Sent(ch, Prepare(s.nextId, version)), s.nextId, version)
  {
    var next := Sent(ch, Prepare(s.nextId, version)).inbox;
    var n := |ch.inbox|;
    assert next[n] == Prepare(s.nextId, version) && next[n + 1..] == [];
    forall i | 0 <= i < n && next[i].Prepare? ensures next[i].id < s.nextId {
      assert FrameOk(s, ch, i) && next[i] == ch.inbox[i];
    }
    assert LastPrepare(next, n, s.nextId, version);
  }

  /** What the child must be allowed to retire before it loads what the new prepare names. */
  ghost predicate MayPrepare(ch: Child) {
    Retained(ch).Some? ==> Permitted(ch.allowed, ch.inbox, |ch.inbox|, Retained(ch).value)
  }

  lemma PrepareKeepsInbox(s: Server, ch: Child, version: nat)
    requires InboxOk(s, ch) && MayPrepare(ch)
    ensures InboxOk(s.(nextId := s.nextId + 1), Sent(ch, Prepare(s.nextId, version)))
  {
    var f := Prepare(s.nextId, version);
    var next := s.(nextId := s.nextId + 1);
    AppendFacts(ch.inbox, f);
    InboxGrows(s, next, ch);
    if Retained(ch).Some? {
      var v := Retained(ch).value;
      PermittedAppend(ch.allowed, ch.inbox, f, |ch.inbox|, v);
    }
    assert FrameOk(next, Sent(ch, f), |ch.inbox|);
    InboxAppend(next, ch, f);
  }

  /** A lower code version is permitted where a higher one is. */
  lemma PermittedBelow(allowed: nat, inbox: seq<Down>, high: nat, low: nat)
    requires low <= high && Permitted(allowed, inbox, |inbox|, high)
    ensures Permitted(allowed, inbox, |inbox|, low)
  {
  }

  /** A commit pending means the child holds its operation prepared, for a code version above what it runs. */
  lemma PendingIsPrepared(s: Server, ch: Child)
    requires ChildOk(s, ch) && InboxOk(s, ch)
    ensures CommitPending(ch.inbox) ==> PreparedOp(ch) && ch.current < ch.machine.op.value.version
    ensures ch.current <= Effective(ch) && Known(s, Effective(ch))
    ensures Retained(ch).Some? ==> Retained(ch).value < Effective(ch) && Known(s, Retained(ch).value)
  {
    if CommitPending(ch.inbox) {
      var i :| 0 <= i < |ch.inbox| && ch.inbox[i].Commit?;
      assert FrameOk(s, ch, i);
    }
  }

  // ---------------------------------------------------------------------------------------------
  // Server events, as one connection and its child see them

  ghost predicate PairKept(s: Server, conns: map<ConnId, Conn>, l: ConnId, k: Conn, ch: Child, e: ServerEvent)
    requires Timely(s, e)
    requires Target(e) == Some(l) ==> Apt(s, k, e)
  {
    PairOk(ServerNext(s, conns, e), l, React(s, l, k, e).0, Delivered(s, l, k, ch, e))
  }

  lemma SilentKeeps(s: Server, next: Server, l: ConnId, k: Conn, ch: Child)
    requires ConnOk(s, l, k, ch) && Grows(s, next) && PhaseOk(next, l, k)
    requires k.standing.Synced? ==> next.current == s.current && next.retired == s.retired
    requires k.standing.Deferred? ==> next.phase != Idle
    ensures ConnOk(next, l, k, ch)
  {
    hide Consumed, InFlight, Permitted, Effective, Votes, Untouched;
  }

  lemma ClosedKeeps(s: Server, conns: map<ConnId, Conn>, l: ConnId, k: Conn, ch: Child, e: ServerEvent)
    requires ServerOk(s) && PairOk(s, l, k, ch) && Timely(s, e)
    requires Target(e) == Some(l) ==> Apt(s, k, e)
    requires !React(s, l, k, e).0.isOpen && Delivered(s, l, k, ch, e) == ch
    ensures PairKept(s, conns, l, k, ch, e)
  {
    var next := ServerNext(s, conns, e);
    ServerGrows(s, conns, e);
    hide ServerOk, ChildOk, InboxOk, ConnOk, Grows, ServerNext, React, Delivered;
    InboxGrows(s, next, ch);
    ChildGrows(s, next, ch);
  }

  /** Events that say nothing to this connection. */
  lemma BystanderKeeps(s: Server, conns: map<ConnId, Conn>, l: ConnId, k: Conn, ch: Child, e: ServerEvent)
    requires ServerOk(s) && PairOk(s, l, k, ch) && Timely(s, e) && k.isOpen
    requires l in conns && conns[l] == k
    requires Target(e) == Some(l) ==> Apt(s, k, e)
    requires React(s, l, k, e) == (k, [])
    requires e.EndReload? ==> !k.standing.Deferred?
    ensures PairKept(s, conns, l, k, ch, e)
  {
    var next := ServerNext(s, conns, e);
    ServerGrows(s, conns, e);
    assert Delivered(s, l, k, ch, e) == ch by { assert ch.inbox + [] == ch.inbox; }
    InboxGrows(s, next, ch);
    ChildGrows(s, next, ch);
    assert PhaseOk(next, l, k);
    hide PhaseOk, InboxOk, ChildOk, TxnOk, VoteIdsOk, IdsOk, ServerOk;
    SilentKeeps(s, next, l, k, ch);
  }

  lemma RetireKeeps(s: Server, conns: map<ConnId, Conn>, l: ConnId, k: Conn, ch: Child)
    requires ServerOk(s) && PairOk(s, l, k, ch) && s.previous.Some? && k.isOpen
    ensures PairKept(s, conns, l, k, ch, RetirePrevious)
  {
    var f := Retire(s.previous.value);
    var next := ServerNext(s, conns, RetirePrevious);
    ServerGrows(s, conns, RetirePrevious);
    InboxGrows(s, next, ch);
    ChildGrows(s, next, ch);
    assert FrameOk(next, Sent(ch, f), |ch.inbox|);
    InboxAppend(next, ch, f);
    QuietFrameKeepsConn(s, l, k, ch, f);
    PermittedAppend(ch.allowed, ch.inbox, f, |ch.inbox|, next.retired);
    assert ConnOk(next, l, k, Sent(ch, f)) by {
      hide Consumed, InFlight, Permitted, Votes, Untouched, Effective;
    }
  }

  lemma RootKeeps(s: Server, conns: map<ConnId, Conn>, l: ConnId, k: Conn, ch: Child, version: nat)
    requires ServerOk(s) && PairOk(s, l, k, ch) && k.isOpen && k.standing.Synced?
    requires version == s.current || s.previous == Some(version)
    ensures PairKept(s, conns, l, k, ch, SendRoot(l, version))
  {
    var f := Root(version);
    var next := Sent(ch, f);
    PendingIsPrepared(s, ch);
    assert FrameOk(s, next, |ch.inbox|) by {
      assert next.inbox[..|ch.inbox|] == ch.inbox;
      forall j | 0 <= j < |ch.inbox| && ch.inbox[j].Retire? ensures ch.inbox[j].version < version {
        assert FrameOk(s, ch, j);
      }
      assert forall j :: 0 <= j < |ch.inbox| ==> next.inbox[j] == ch.inbox[j];
    }
    InboxAppend(s, ch, f);
    QuietFrameKeepsConn(s, l, k, ch, f);
  }

  /** A synced child that has heard of every retirement may load the next code version. */
  lemma SyncedMayPrepare(s: Server, l: ConnId, k: Conn, ch: Child)
    requires ServerOk(s) && ChildOk(s, ch) && InboxOk(s, ch) && StandingOk(s, l, k, ch)
    requires k.standing.Synced? && s.previous.None?
    ensures MayPrepare(ch)
  {
    PendingIsPrepared(s, ch);
    if Retained(ch).Some? { PermittedBelow(ch.allowed, ch.inbox, s.retired, Retained(ch).value); }
  }

  lemma SendPreparesKeeps(s: Server, conns: map<ConnId, Conn>, l: ConnId, k: Conn, ch: Child)
    requires ServerOk(s) && PairOk(s, l, k, ch) && Timely(s, SendPrepares) && k.isOpen
    requires l in conns && conns[l] == k && l in s.phase.synced
    ensures PairKept(s, conns, l, k, ch, SendPrepares)
  {
    var version := s.phase.version;
    var f := Prepare(s.nextId, version);
    var next := ServerNext(s, conns, SendPrepares);
    SyncedMayPrepare(s, l, k, ch);
    PrepareKeepsInbox(s, ch, version);
    InboxGrows(s.(nextId := s.nextId + 1), next, Sent(ch, f));
    PrepareFlies(s, l, k, ch, version);
    AppendFacts(ch.inbox, f);
    PermittedAppend(ch.allowed, ch.inbox, f, |ch.inbox|, s.retired);
    assert ConnOk(next, l, k.(txn := Awaiting(s.nextId, version)), Sent(ch, f)) by {
      hide Permitted, InFlight, FrameOk, InboxOk;
    }
  }

  /** A commit follows a vote: the child holds what it commits, and nothing else is on its way. */
  lemma CommitKeeps(s: Server, next: Server, l: ConnId, k: Conn, ch: Child)
    requires ch.link == Some(l) && ChildOk(s, ch) && InboxOk(s, ch) && ConnOk(s, l, k, ch) && k.txn.Voted? &&
      Grows(s, next)
    requires next.current == k.txn.version
    requires k.standing.Behind? || (k.standing.Synced? && next.retired == s.retired)
    requires PhaseOk(next, l, k.(txn := NoTxn))
    ensures PairOk(next, l, k.(txn := NoTxn, peer := k.txn.version), Sent(ch, Commit(k.txn.id)))
  {
    var f := Commit(k.txn.id);
    assert Consumed(l, k, ch, k.txn.id, k.txn.version);
    InboxGrows(s, next, ch);
    ChildGrows(s, next, ch);
    assert FrameOk(next, Sent(ch, f), |ch.inbox|) by {
      assert Sent(ch, f).inbox[..|ch.inbox|] == ch.inbox;
    }
    InboxAppend(next, ch, f);
    AppendFacts(ch.inbox, f);
    PermittedAppend(ch.allowed, ch.inbox, f, |ch.inbox|, s.retired);
    hide FrameOk, InboxOk, Permitted;
  }

  lemma AbortKeeps(s: Server, next: Server, l: ConnId, k: Conn, ch: Child)
    requires ch.link == Some(l) && ChildOk(s, ch) && InboxOk(s, ch) && ConnOk(s, l, k, ch) && !k.txn.NoTxn? &&
      Grows(s, next)
    requires k.standing.Synced? ==> next.current == s.current && next.retired == s.retired
    requires k.standing.Behind? || k.standing.Synced?
    requires PhaseOk(next, l, k.(txn := NoTxn))
    ensures PairOk(next, l, k.(txn := NoTxn), Sent(ch, Abort(k.txn.id)))
  {
    var f := Abort(k.txn.id);
    InboxGrows(s, next, ch);
    ChildGrows(s, next, ch);
    assert FrameOk(next, Sent(ch, f), |ch.inbox|);
    InboxAppend(next, ch, f);
    AppendFacts(ch.inbox, f);
    PermittedAppend(ch.allowed, ch.inbox, f, |ch.inbox|, s.retired);
    hide FrameOk, InboxOk, Permitted;
  }

  lemma DecisionKeeps(s: Server, conns: map<ConnId, Conn>, l: ConnId, k: Conn, ch: Child, e: ServerEvent)
    requires ServerOk(s) && PairOk(s, l, k, ch) && Timely(s, e) && k.isOpen
    requires e.DecideCommit? || e.DecideAbort?
    requires l in s.phase.participants && (e.DecideCommit? ==> k.txn.Voted?)
    ensures PairKept(s, conns, l, k, ch, e)
  {
    var next := ServerNext(s, conns, e);
    ServerGrows(s, conns, e);
    if e.DecideCommit? {
      CommitKeeps(s, next, l, k, ch);
    } else {
      AbortKeeps(s, next, l, k, ch);
    }
  }

  lemma DecideReconcileKeeps(s: Server, conns: map<ConnId, Conn>, l: ConnId, k: Conn, ch: Child)
    requires ServerOk(s) && PairOk(s, l, k, ch) && k.isOpen && k.standing.Behind? && k.txn.Voted?
    ensures PairKept(s, conns, l, k, ch, DecideReconcile(l))
  {
    if s.current == k.txn.version {
      CommitKeeps(s, s, l, k, ch);
    } else {
      AbortKeeps(s, s, l, k, ch);
    }
  }

  /** The announcement makes what the host retired permitted, and leaves the rest as it was. */
  lemma AnnounceKeeps(s: Server, ch: Child)
    requires ServerOk(s) && ChildOk(s, ch) && InboxOk(s, ch)
    ensures var told := ch.(inbox := ch.inbox + Announce(s));
      && InboxOk(s, told)
      && CommitPending(told.inbox) == CommitPending(ch.inbox)
      && Quiet(told.inbox) == Quiet(ch.inbox)
      && Permitted(ch.allowed, told.inbox, |told.inbox|, Oldest(s) - 1)
  {
    if Oldest(s) > 1 {
      var f := Retire(Oldest(s) - 1);
      assert FrameOk(s, Sent(ch, f), |ch.inbox|);
      InboxAppend(s, ch, f);
      AppendFacts(ch.inbox, f);
      PermittedAppend(ch.allowed, ch.inbox, f, |ch.inbox|, Oldest(s) - 1);
      assert Announce(s) == [f];
    } else {
      assert ch.inbox + Announce(s) == ch.inbox;
    }
  }

  /** `peerHello` of a child nothing was asked of yet. */
  lemma GreetKeeps(s: Server, l: ConnId, k: Conn, ch: Child, version: nat)
    requires ch.link == Some(l) && ServerOk(s) && ChildOk(s, ch) && InboxOk(s, ch) && Untouched(l, k, ch) &&
      Votes(k.inbox)
    requires VoteIdsOk(s, k) && version == ch.current && k.isOpen && !k.standing.Synced?
    requires PhaseOk(s, l, k.(standing := Fresh))
    ensures PairOk(s, l, Greet(s, k, version).0, ch.(inbox := ch.inbox + Greet(s, k, version).1))
  {
    assert ch.inbox + [] == ch.inbox;
    AnnounceKeeps(s, ch);
    var told := ch.(inbox := ch.inbox + Announce(s));
    PermittedBelow(ch.allowed, told.inbox, Oldest(s) - 1, s.retired);
    assert !CommitPending(ch.inbox);
    hide FrameOk, InboxOk, Permitted;
  }

  lemma HelloKeeps(s: Server, conns: map<ConnId, Conn>, l: ConnId, k: Conn, ch: Child)
    requires ServerOk(s) && PairOk(s, l, k, ch) && k.isOpen && k.inbox != [] && k.inbox[0].Hello?
    ensures PairKept(s, conns, l, k, ch, Receive(l))
  {
    assert k.standing.Fresh?;
    var rest := k.(inbox := k.inbox[1..]);
    GreetKeeps(s, l, rest, ch, ch.current);
  }

  lemma VoteKeeps(s: Server, conns: map<ConnId, Conn>, l: ConnId, k: Conn, ch: Child)
    requires ServerOk(s) && PairOk(s, l, k, ch) && k.isOpen && k.inbox != [] && k.inbox[0].Vote?
    ensures PairKept(s, conns, l, k, ch, Receive(l))
  {
    var next := React(s, l, k, Receive(l)).0;
    assert ch.inbox + [] == ch.inbox;
    assert forall i :: 0 <= i < |next.inbox| ==> next.inbox[i] == k.inbox[i + 1];
    assert k.inbox[0] in k.inbox && forall v :: v in next.inbox ==> v in k.inbox;
    assert TxnOk(s, l, next, ch);
    hide TxnOk, InboxOk, ChildOk, Permitted;
  }

  lemma DeadlineKeeps(s: Server, conns: map<ConnId, Conn>, l: ConnId, k: Conn, ch: Child)
    requires ServerOk(s) && PairOk(s, l, k, ch) && k.isOpen && k.txn.Awaiting?
    ensures PairKept(s, conns, l, k, ch, VoteDeadline(l))
  {
    assert ch.inbox + [] == ch.inbox;
    hide InboxOk, ChildOk, Permitted;
  }

  lemma EndReloadKeeps(s: Server, conns: map<ConnId, Conn>, l: ConnId, k: Conn, ch: Child)
    requires ServerOk(s) && PairOk(s, l, k, ch) && s.phase.Finishing? && k.isOpen && k.standing.Deferred?
    ensures PairKept(s, conns, l, k, ch, EndReload)
  {
    var next := s.(phase := Idle);
    ServerGrows(s, conns, EndReload);
    InboxGrows(s, next, ch);
    ChildGrows(s, next, ch);
    GreetKeeps(next, l, k, ch, ch.current);
  }

  /** What a child that is behind retains by then is below everything the server retains. */
  lemma BehindIsBelow(s: Server, ch: Child)
    requires ServerOk(s) && ChildOk(s, ch) && InboxOk(s, ch) && Effective(ch) != s.current
    ensures Retained(ch).Some? ==> Retained(ch).value < Oldest(s)
  {
    PendingIsPrepared(s, ch);
  }

  lemma ReconcileKeeps(s: Server, conns: map<ConnId, Conn>, l: ConnId, k: Conn, ch: Child)
    requires ServerOk(s) && PairOk(s, l, k, ch) && Timely(s, Reconcile(l)) && Apt(s, k, Reconcile(l))
    ensures PairKept(s, conns, l, k, ch, Reconcile(l))
  {
    var next := s.(nextId := s.nextId + 1);
    var told := ch.(inbox := ch.inbox + Announce(s));
    ServerGrows(s, conns, Reconcile(l));
    AnnounceKeeps(s, ch);
    assert ConnOk(s, l, k, told) by {
      if Oldest(s) > 1 {
        QuietFrameKeepsConn(s, l, k, ch, Retire(Oldest(s) - 1));
        assert told == Sent(ch, Retire(Oldest(s) - 1));
      } else {
        assert told == ch;
      }
    }
    if k.peer == s.current {
      PermittedBelow(ch.allowed, told.inbox, Oldest(s) - 1, s.retired);
      InboxGrows(s, next, told);
      ChildGrows(s, next, told);
      SilentKeeps(s, next, l, k, told);
      hide InboxOk, Permitted, TxnOk, ServerOk;
    } else {
      ReconcilePrepareKeeps(s, l, k, ch, told);
      var f := Prepare(s.nextId, s.current);
      assert ch.inbox + (Announce(s) + [f]) == told.inbox + [f];
      hide PairOk;
    }
  }

  lemma ReconcilePrepareKeeps(s: Server, l: ConnId, k: Conn, ch: Child, told: Child)
    requires ServerOk(s) && ChildOk(s, ch) && InboxOk(s, ch) && ConnOk(s, l, k, told) && Apt(s, k, Reconcile(l))
    requires told == ch.(inbox := ch.inbox + Announce(s)) && ch.link == Some(l) && s.phase.Idle?
    requires k.peer != s.current
    ensures PairOk(s.(nextId := s.nextId + 1), l, k.(txn := Awaiting(s.nextId, s.current)),
                   Sent(told, Prepare(s.nextId, s.current)))
  {
    var next := s.(nextId := s.nextId + 1);
    var f := Prepare(s.nextId, s.current);
    AnnounceKeeps(s, ch);
    BehindIsBelow(s, ch);
    if Retained(told).Some? {
      PermittedBelow(ch.allowed, told.inbox, Oldest(s) - 1, Retained(told).value);
    }
    PrepareKeepsInbox(s, told, s.current);
    PrepareFlies(s, l, k, told, s.current);
    AppendFacts(told.inbox, f);
    hide InboxOk, FrameOk, Permitted, InFlight;
  }

  /** Every server event keeps what holds between the server, one connection and the child behind it. */
  lemma ServerEventKeeps(t: World, e: ServerEvent, l: ConnId, ch: Child)
    requires ServerEnabled(t, e) && ServerOk(t.server) && l in t.conns && PairOk(t.server, l, t.conns[l], ch)
    ensures PairKept(t.server, t.conns, l, t.conns[l], ch, e)
  {
    var s, k := t.server, t.conns[l];
    assert ch.inbox + [] == ch.inbox;
    hide ServerOk, ConnOk, InboxOk, ChildOk, PairKept, ServerNext;
    assert PairOk(s, l, k, ch);
    hide PairOk;
    if !k.isOpen || !React(s, l, k, e).0.isOpen {
      ShutKeeps(t, e, l, ch);
    } else if Target(e) == Some(l) {
      TargetKeeps(t, e, l, ch);
    } else {
      match e {
        case SendPrepares =>
          if l in s.phase.synced {
            SendPreparesKeeps(s, t.conns, l, k, ch);
          } else {
            BystanderKeeps(s, t.conns, l, k, ch, e);
          }
        case RetirePrevious => RetireKeeps(s, t.conns, l, k, ch);
        case EndReload =>
          if k.standing.Deferred? {
            EndReloadKeeps(s, t.conns, l, k, ch);
          } else {
            BystanderKeeps(s, t.conns, l, k, ch, e);
          }
        case DecideCommit =>
          if l in s.phase.participants {
            DecisionKeeps(s, t.conns, l, k, ch, e);
          } else {
            BystanderKeeps(s, t.conns, l, k, ch, e);
          }
        case DecideAbort =>
          if l in s.phase.participants {
            DecisionKeeps(s, t.conns, l, k, ch, e);
          } else {
            BystanderKeeps(s, t.conns, l, k, ch, e);
          }
        case _ => BystanderKeeps(s, t.conns, l, k, ch, e);
      }
    }
  }

  lemma ShutKeeps(t: World, e: ServerEvent, l: ConnId, ch: Child)
    requires ServerEnabled(t, e) && ServerOk(t.server) && l in t.conns && PairOk(t.server, l, t.conns[l], ch)
    requires !t.conns[l].isOpen || !React(t.server, l, t.conns[l], e).0.isOpen
    ensures PairKept(t.server, t.conns, l, t.conns[l], ch, e)
  {
    hide ServerOk, ConnOk, InboxOk, ChildOk, PairKept;
    assert ch.inbox + [] == ch.inbox;
    ClosedKeeps(t.server, t.conns, l, t.conns[l], ch, e);
  }

  lemma TargetKeeps(t: World, e: ServerEvent, l: ConnId, ch: Child)
    requires ServerEnabled(t, e) && ServerOk(t.server) && l in t.conns && PairOk(t.server, l, t.conns[l], ch)
    requires Target(e) == Some(l) && t.conns[l].isOpen && React(t.server, l, t.conns[l], e).0.isOpen
    ensures PairKept(t.server, t.conns, l, t.conns[l], ch, e)
  {
    var s, k := t.server, t.conns[l];
    hide ServerOk, ConnOk, InboxOk, ChildOk, PairKept, PairOk, ServerNext;
    match e {
      case Receive(_) =>
        if k.inbox[0].Hello? { HelloKeeps(s, t.conns, l, k, ch); } else { VoteKeeps(s, t.conns, l, k, ch); }
      case VoteDeadline(_) => DeadlineKeeps(s, t.conns, l, k, ch);
      case Reconcile(_) => ReconcileKeeps(s, t.conns, l, k, ch);
      case DecideReconcile(_) => DecideReconcileKeeps(s, t.conns, l, k, ch);
      case SendRoot(_, version) => RootKeeps(s, t.conns, l, k, ch, version);
      case _ =>
    }
  }

  // ---------------------------------------------------------------------------------------------
  // Child events

  /** The child once its votes are on the link. */
  function Emptied(ch: Child): Child { ch.(machine := ch.machine.(ballots := [])) }

  function Heard(k: Conn, l: ConnId, ch: Child): Conn { k.(inbox := k.inbox + VotesFor(ch.machine.ballots, l)) }

  ghost predicate ChildKept(s: Server, l: ConnId, k: Conn, next: Child) {
    PairOk(s, l, Heard(k, l, next), Emptied(next))
  }

  lemma NoVotes(k: Conn, l: ConnId, ch: Child)
    requires ch.machine.ballots == []
    ensures Heard(k, l, ch) == k && Emptied(ch) == ch
  {
    assert k.inbox + [] == k.inbox;
  }

  lemma OneVote(k: Conn, l: ConnId, ch: Child, ballot: C.Ballot)
    requires ch.machine.ballots == [ballot]
    ensures Heard(k, l, ch).inbox == k.inbox + (if ballot.link == l then [Vote(ballot.id, ballot.ok)] else [])
  {
    assert VotesFor([], l) == [];
    assert ch.machine.ballots[..0] == [];
  }

  /**
    * What a host's own work does to its operation: it stays the same one or goes, a prepared one stays
    * prepared, and a vote is about it, a vote for the commit only as it becomes prepared.
    */
  predicate Worked(m: C.Machine, next: C.Machine) {
    && (next.op.Some? ==> m.op.Some? && next.op.value.link == m.op.value.link
                          && next.op.value.id == m.op.value.id && next.op.value.version == m.op.value.version)
    && (m.op.Some? && m.op.value.stage.Prepared? ==> next.op == m.op && next.ballots == [])
    && (next.ballots == [] || (
          && m.op.Some? && |next.ballots| == 1
          && next.ballots[0].link == m.op.value.link && next.ballots[0].id == m.op.value.id
          && (next.ballots[0].ok ==> next.op.Some? && next.op.value.stage.Prepared?)))
  }

  lemma WorkShape(m: C.Machine, w: C.Event)
    requires Internal(w) && C.Enabled(m, w) && m.ballots == []
    ensures Worked(m, C.Step(m, w))
    ensures C.Step(m, w).op.Some? && C.Step(m, w).op.value.stage.Prepared? ==>
      C.Step(m, w).op == m.op || w == C.PrepareSettled(true)
  {
  }

  /** The child's machine moves, and commits on their way still find what they commit. */
  lemma MachineKeepsInbox(s: Server, ch: Child, m: C.Machine)
    requires InboxOk(s, ch)
    requires PreparedOp(ch) ==> m.op == ch.machine.op
    ensures InboxOk(s, ch.(machine := m))
  {
    var next := ch.(machine := m);
    forall i | 0 <= i < |ch.inbox| ensures FrameOk(s, next, i) {
      assert FrameOk(s, ch, i);
    }
  }

  lemma WorkKeepsTxn(s: Server, l: ConnId, k: Conn, ch: Child, next: Child)
    requires next == ch.(machine := next.machine) && Worked(ch.machine, next.machine)
    requires TxnOk(s, l, k, ch) && IdsOk(s, l, ch) && VoteIdsOk(s, k)
    ensures TxnOk(s, l, Heard(k, l, next), Emptied(next))
    ensures IdsOk(s, l, Emptied(next)) && VoteIdsOk(s, Heard(k, l, next))
    ensures !OpOf(ch, l) ==> Heard(k, l, next).inbox == k.inbox
  {
    if next.machine.ballots == [] {
      NoVotes(k, l, next);
    } else {
      OneVote(k, l, next, next.machine.ballots[0]);
    }
    hide LastPrepare, Quiet, VotesFor;
  }

  lemma WorkKeeps(t: World, l: ConnId, k: Conn, ch: Child, w: C.Event)
    requires PairOk(t.server, l, k, ch) && ChildEnabled(t, ch, Work(w))
    ensures ChildKept(t.server, l, k, ChildNext(t, ch, Work(w)))
  {
    var s := t.server;
    var next := ChildNext(t, ch, Work(w));
    WorkShape(ch.machine, w);
    assert ChildOk(s, Emptied(next));
    hide C.Step, C.Enabled;
    MachineKeepsInbox(s, ch, Emptied(next).machine);
    PendingIsPrepared(s, ch);
    assert Effective(Emptied(next)) == Effective(ch);
    if k.isOpen {
      WorkKeepsTxn(s, l, k, ch, next);
      VotesStay(k, l, next);
    }
    hide InboxOk, ChildOk, FrameOk, TxnOk, Permitted, VotesFor, Effective;
  }

  lemma {:induction false} VotesAreVotes(ballots: seq<C.Ballot>, l: ConnId)
    ensures Votes(VotesFor(ballots, l))
  {
    if ballots != [] { VotesAreVotes(ballots[..|ballots| - 1], l); }
  }

  lemma VotesStay(k: Conn, l: ConnId, ch: Child)
    ensures Votes(k.inbox) ==> Votes(Heard(k, l, ch).inbox)
  {
    VotesAreVotes(ch.machine.ballots, l);
  }

  lemma RetireAllowedKeeps(t: World, l: ConnId, k: Conn, ch: Child)
    requires PairOk(t.server, l, k, ch) && ChildEnabled(t, ch, RetireAllowed)
    ensures ChildKept(t.server, l, k, ChildNext(t, ch, RetireAllowed))
  {
    var s := t.server;
    var next := ch.(previous := None);
    NoVotes(k, l, next);
    forall i | 0 <= i < |ch.inbox| ensures FrameOk(s, next, i) { assert FrameOk(s, ch, i); }
    assert TxnOk(s, l, k, ch) ==> TxnOk(s, l, k, next) by {
      if k.txn != NoTxn && InFlight(l, k, ch, k.txn.id, k.txn.version) {
        var n: nat :| LastPrepare(ch.inbox, n, k.txn.id, k.txn.version);
        assert LastPrepare(next.inbox, n, k.txn.id, k.txn.version);
      }
    }
    hide FrameOk, TxnOk, Permitted;
  }

  // ---------------------------------------------------------------------------------------------
  // Frames the child reads

  lemma TailFacts(inbox: seq<Down>)
    requires inbox != []
    ensures CommitPending(inbox) <==> inbox[0].Commit? || CommitPending(inbox[1..])
    ensures Quiet(inbox) <==> !Reloading(inbox[0]) && Quiet(inbox[1..])
  {
    var rest := inbox[1..];
    assert forall i :: 0 <= i < |rest| ==> rest[i] == inbox[i + 1];
    assert forall i :: 0 < i < |inbox| ==> inbox[i] == rest[i - 1];
  }

  lemma PermittedTail(allowed: nat, later: nat, inbox: seq<Down>, n: nat, version: nat)
    requires n < |inbox| && allowed <= later && (inbox[0].Retire? ==> inbox[0].version <= later)
    requires Permitted(allowed, inbox, n + 1, version)
    ensures Permitted(later, inbox[1..], n, version)
  {
    if version > allowed {
      var i :| 0 <= i < n + 1 && inbox[i].Retire? && version <= inbox[i].version;
      if i > 0 { assert inbox[1..][i - 1] == inbox[i]; }
    }
  }

  lemma LastPrepareTail(inbox: seq<Down>, n: nat, id: nat, version: nat)
    requires LastPrepare(inbox, n, id, version)
    ensures n == 0 ==> inbox[0] == Prepare(id, version) && Quiet(inbox[1..])
    ensures n > 0 ==> LastPrepare(inbox[1..], n - 1, id, version)
    ensures n > 0 && inbox[0].Prepare? ==> inbox[0].id < id
  {
    if n > 0 {
      assert inbox[1..][n..] == inbox[n + 1..];
      assert forall i :: 0 <= i < n - 1 ==> inbox[1..][i] == inbox[i + 1];
    }
  }

  /** After a frame that is no part of a reload: permissions move from the way to the host. */
  lemma ReadQuietKeepsInbox(s: Server, ch: Child)
    requires ch.inbox != [] && !Reloading(ch.inbox[0]) && InboxOk(s, ch) && ch.link.Some?
    ensures InboxOk(s, OnDown(ch))
  {
    var next := OnDown(ch);
    TailFacts(ch.inbox);
    forall i | 0 <= i < |next.inbox| ensures FrameOk(s, next, i) {
      assert FrameOk(s, ch, i + 1) && next.inbox[i] == ch.inbox[i + 1];
      TailFacts(ch.inbox[..i + 1]);
      assert ch.inbox[..i + 1][1..] == next.inbox[..i];
      if ch.inbox[i + 1].Prepare? && Retained(ch).Some? {
        PermittedTail(ch.allowed, next.allowed, ch.inbox, i, Retained(ch).value);
      }
      assert forall j :: 0 <= j < i ==> next.inbox[j] == ch.inbox[j + 1];
    }
  }

  lemma ReadQuietKeeps(s: Server, l: ConnId, k: Conn, ch: Child)
    requires PairOk(s, l, k, ch) && ch.inbox != [] && !Reloading(ch.inbox[0])
    ensures ChildKept(s, l, k, OnDown(ch))
  {
    var next := OnDown(ch);
    NoVotes(k, l, next);
    ReadQuietKeepsInbox(s, ch);
    TailFacts(ch.inbox);
    assert FrameOk(s, ch, 0);
    assert Effective(next) == Effective(ch);
    if k.isOpen {
      if !k.txn.NoTxn? && InFlight(l, k, ch, k.txn.id, k.txn.version) {
        var n: nat :| LastPrepare(ch.inbox, n, k.txn.id, k.txn.version);
        LastPrepareTail(ch.inbox, n, k.txn.id, k.txn.version);
        assert InFlight(l, k, next, k.txn.id, k.txn.version);
      }
      if k.standing.Synced? { PermittedTail(ch.allowed, next.allowed, ch.inbox, |next.inbox|, s.retired); }
    }
    hide FrameOk, InboxOk, Permitted, InFlight, Effective;
  }

  /** After a commit that finds its operation: the child runs what it was going to run. */
  lemma ReadCommitKeepsInbox(s: Server, ch: Child)
    requires ch.inbox != [] && ch.inbox[0].Commit? && InboxOk(s, ch) && ChildOk(s, ch) && ch.link.Some?
    ensures InboxOk(s, OnDown(ch)) && !CommitPending(OnDown(ch).inbox)
    ensures OnDown(ch).current == Effective(ch) && OnDown(ch).previous == Some(ch.current)
    ensures ChildOk(s, OnDown(ch)) && OnDown(ch).machine.op.None?
  {
    var next := OnDown(ch);
    TailFacts(ch.inbox);
    assert FrameOk(s, ch, 0);
    forall i | 0 <= i < |next.inbox| ensures !next.inbox[i].Commit? {
      assert FrameOk(s, ch, i + 1) && next.inbox[i] == ch.inbox[i + 1];
      assert ch.inbox[..i + 1][0] == ch.inbox[0];
    }
    forall i | 0 <= i < |next.inbox| ensures FrameOk(s, next, i) {
      assert FrameOk(s, ch, i + 1) && next.inbox[i] == ch.inbox[i + 1];
      if ch.inbox[i + 1].Prepare? {
        PermittedTail(ch.allowed, next.allowed, ch.inbox, i, ch.current);
      }
      assert forall j :: 0 <= j < i ==> next.inbox[j] == ch.inbox[j + 1];
    }
  }

  lemma ReadCommitKeeps(s: Server, l: ConnId, k: Conn, ch: Child)
    requires PairOk(s, l, k, ch) && ch.inbox != [] && ch.inbox[0].Commit?
    ensures ChildKept(s, l, k, OnDown(ch))
  {
    var next := OnDown(ch);
    ReadCommitKeepsInbox(s, ch);
    NoVotes(k, l, next);
    TailFacts(ch.inbox);
    if k.isOpen {
      if !k.txn.NoTxn? {
        var n: nat :| LastPrepare(ch.inbox, n, k.txn.id, k.txn.version);
        LastPrepareTail(ch.inbox, n, k.txn.id, k.txn.version);
        assert InFlight(l, k, next, k.txn.id, k.txn.version);
      }
      if k.standing.Synced? { PermittedTail(ch.allowed, next.allowed, ch.inbox, |next.inbox|, s.retired); }
    }
    hide FrameOk, InboxOk, Permitted, InFlight, ChildOk;
  }

  /** After a prepare or an abort nothing is committed: no commit is on its way behind it. */
  lemma ReadOtherKeepsInbox(s: Server, ch: Child)
    requires ch.inbox != [] && (ch.inbox[0].Prepare? || ch.inbox[0].Abort?) && InboxOk(s, ch) && ch.link.Some?
    ensures InboxOk(s, Emptied(OnDown(ch))) && !CommitPending(ch.inbox) && !CommitPending(ch.inbox[1..])
  {
    var next := Emptied(OnDown(ch));
    assert forall i :: 0 <= i < |ch.inbox| && ch.inbox[i].Commit? ==>
      FrameOk(s, ch, i) && i > 0 && ch.inbox[..i][0] == ch.inbox[0];
    TailFacts(ch.inbox);
    forall i | 0 <= i < |next.inbox| ensures FrameOk(s, next, i) {
      assert FrameOk(s, ch, i + 1) && next.inbox[i] == ch.inbox[i + 1];
      assert forall j :: 0 <= j < i + 1 ==> ch.inbox[..i + 1][j] == ch.inbox[j];
      if ch.inbox[i + 1].Prepare? && Retained(ch).Some? {
        PermittedTail(ch.allowed, next.allowed, ch.inbox, i, Retained(ch).value);
      }
      assert forall j :: 0 <= j < i ==> next.inbox[j] == ch.inbox[j + 1];
    }
  }

  /** What a prepare or an abort does to the operation, and the busy vote it may cast. */
  predicate Asked(m: C.Machine, next: C.Machine, f: Down, l: ConnId) {
    && (next.ballots == [] || (f.Prepare? && next.ballots == [C.Ballot(l, f.id, false)]))
    && (next.op.Some? ==>
          var o := next.op.value;
          || (m.op.Some? && o.link == m.op.value.link && o.id == m.op.value.id && o.version == m.op.value.version
              && (o.stage.Prepared? ==> next.op == m.op))
          || (f.Prepare? && o.link == l && o.id == f.id && o.version == f.version && !o.stage.Prepared?))
  }

  lemma AskedShape(ch: Child)
    requires ch.link.Some? && ch.inbox != [] && (ch.inbox[0].Prepare? || ch.inbox[0].Abort?) && ch.machine.ballots == []
    ensures Asked(ch.machine, OnDown(ch).machine, ch.inbox[0], ch.link.value)
    ensures OnDown(ch) == ch.(inbox := ch.inbox[1..], machine := OnDown(ch).machine)
  {
  }

  lemma ReadOtherKeepsTxn(s: Server, l: ConnId, k: Conn, ch: Child, next: Child)
    requires ch.inbox != [] && (ch.inbox[0].Prepare? || ch.inbox[0].Abort?)
    requires next == ch.(inbox := ch.inbox[1..], machine := next.machine)
    requires Asked(ch.machine, next.machine, ch.inbox[0], l) && FrameOk(s, ch, 0)
    requires TxnOk(s, l, k, ch) && IdsOk(s, l, ch) && VoteIdsOk(s, k)
    ensures TxnOk(s, l, Heard(k, l, next), Emptied(next))
    ensures IdsOk(s, l, Emptied(next)) && VoteIdsOk(s, Heard(k, l, next))
  {
    if next.machine.ballots == [] {
      NoVotes(k, l, next);
    } else {
      OneVote(k, l, next, next.machine.ballots[0]);
    }
    TailFacts(ch.inbox);
    hide VotesFor, Permitted;
    if !k.txn.NoTxn? {
      var n: nat :| LastPrepare(ch.inbox, n, k.txn.id, k.txn.version);
      LastPrepareTail(ch.inbox, n, k.txn.id, k.txn.version);
      hide LastPrepare, Quiet;
    }
  }

  lemma ReadOtherKeeps(s: Server, l: ConnId, k: Conn, ch: Child)
    requires PairOk(s, l, k, ch) && ch.inbox != [] && (ch.inbox[0].Prepare? || ch.inbox[0].Abort?)
    ensures ChildKept(s, l, k, OnDown(ch))
  {
    var next := OnDown(ch);
    ReadOtherKeepsInbox(s, ch);
    AskedShape(ch);
    TailFacts(ch.inbox);
    hide OnDown;
    assert FrameOk(s, ch, 0);
    if k.isOpen {
      ReadOtherKeepsTxn(s, l, k, ch, next);
      VotesStay(k, l, next);
      if k.standing.Synced? { PermittedTail(ch.allowed, next.allowed, ch.inbox, |next.inbox|, s.retired); }
    }
    hide FrameOk, InboxOk, Permitted, TxnOk, VotesFor;
  }

  lemma LostLinkKeeps(s: Server, ch: Child)
    requires ChildOk(s, ch)
    ensures ChildOk(s, ch.(link := None, inbox := [], machine := C.OnParentLost(ch.machine)))
  {
  }

  lemma NewLinkKeeps(t: World, c: ChildId, ch: Child, l: ConnId)
    requires ServerOk(t.server) && KnownConns(t) && ChildOk(t.server, ch) && l !in t.conns && !OpOf(ch, l)
    ensures PairOk(t.server, l, Conn(c, true, Fresh, 0, NoTxn, [Hello(ch.current)]), ch.(link := Some(l), inbox := []))
  {
  }

  // ---------------------------------------------------------------------------------------------
  // Every step keeps the invariant

  lemma ServerStepKeeps(t: World, e: ServerEvent)
    requires Inv(t) && ServerEnabled(t, e)
    ensures Inv(ServerStep(t, e))
  {
    var next := ServerStep(t, e);
    ServerGrows(t.server, t.conns, e);
    assert KnownConns(next);
    forall c | c in next.children ensures HostOk(next, c) {
      assert HostOk(t, c);
      ServerStepKeepsHost(t, e, c);
    }
  }

  lemma ServerStepKeepsHost(t: World, e: ServerEvent, c: ChildId)
    requires ServerOk(t.server) && c in t.children && HostOk(t, c) && ServerEnabled(t, e)
    ensures HostOk(ServerStep(t, e), c)
  {
    hide PairOk, ChildOk, ServerOk, Timely, Apt;
    var ch := t.children[c];
    var next := ServerStep(t, e);
    if ch.link.Some? {
      var l := ch.link.value;
      ServerEventKeeps(t, e, l, ch);
      DeliveredKeepsHost(t.server, l, t.conns[l], ch, e);
      assert next.conns[l] == React(t.server, l, t.conns[l], e).0;
      assert next.children[c] == Delivered(t.server, l, t.conns[l], ch, e);
      hide React, Delivered;
    } else {
      ServerGrows(t.server, t.conns, e);
      ChildGrows(t.server, next.server, ch);
      assert next.children[c] == ch;
    }
  }

  lemma DeliveredKeepsHost(s: Server, l: ConnId, k: Conn, ch: Child, e: ServerEvent)
    requires Timely(s, e) && (Target(e) == Some(l) ==> Apt(s, k, e))
    ensures React(s, l, k, e).0.child == k.child
    ensures Delivered(s, l, k, ch, e).machine == ch.machine && Delivered(s, l, k, ch, e).link == ch.link
  {
  }

  lemma LinkedStepKeeps(t: World, l: ConnId, k: Conn, ch: Child, e: ChildEvent)
    requires PairOk(t.server, l, k, ch) && ChildEnabled(t, ch, e) && !e.Connect? && !e.LoseLink?
    ensures ChildKept(t.server, l, k, ChildNext(t, ch, e)) && ChildNext(t, ch, e).link == Some(l)
    ensures ChildNext(t, ch, e).machine.op.Some? ==>
      OpOf(ChildNext(t, ch, e), l) ||
          (ch.machine.op.Some? && ch.machine.op.value.link == ChildNext(t, ch, e).machine.op.value.link)
  {
    match e {
      case Work(w) =>
        WorkShape(ch.machine, w);
        WorkKeeps(t, l, k, ch, w);
      case RetireAllowed => RetireAllowedKeeps(t, l, k, ch);
      case ReceiveDown =>
        if !Reloading(ch.inbox[0]) {
          ReadQuietKeeps(t.server, l, k, ch);
        } else if ch.inbox[0].Commit? {
          ReadCommitKeeps(t.server, l, k, ch);
        } else {
          AskedShape(ch);
          ReadOtherKeeps(t.server, l, k, ch);
        }
    }
  }

  lemma UnlinkedStepKeeps(t: World, ch: Child, e: ChildEvent)
    requires ChildOk(t.server, ch) && ChildEnabled(t, ch, e) && ch.link.None? && !e.Connect?
    ensures ChildOk(t.server, Emptied(ChildNext(t, ch, e))) && ChildNext(t, ch, e).link.None?
    ensures ChildNext(t, ch, e).machine.op.Some? ==>
      ch.machine.op.Some? && ch.machine.op.value.link == ChildNext(t, ch, e).machine.op.value.link
  {
    if e.Work? { WorkShape(ch.machine, e.e); }
  }

  /** The child that moved. */
  lemma ChildStepKeepsHost(t: World, c: ChildId, e: ChildEvent)
    requires Inv(t) && c in t.children && ChildEnabled(t, t.children[c], e)
    ensures HostOk(ChildStep(t, c, e), c)
  {
    var ch := t.children[c];
    var next := ChildStep(t, c, e);
    assert HostOk(t, c);
    match e {
      case Connect(l) =>
        NewLinkKeeps(t, c, ch, l);
      case LoseLink =>
        LostLinkKeeps(t.server, ch);
        assert next.children[c] == Emptied(ChildNext(t, ch, e)) && next.conns == t.conns;
        assert ChildNext(t, ch, e).machine.ballots == [];
      case _ =>
        if ch.link.Some? {
          LinkedStepKeeps(t, ch.link.value, t.conns[ch.link.value], ch, e);
        } else {
          UnlinkedStepKeeps(t, ch, e);
        }
        hide PairOk, ChildOk, ChildNext, ChildEnabled;
    }
  }

  lemma ChildStepKeeps(t: World, c: ChildId, e: ChildEvent)
    requires Inv(t) && c in t.children && ChildEnabled(t, t.children[c], e)
    ensures Inv(ChildStep(t, c, e))
  {
    var next := ChildStep(t, c, e);
    ChildStepKeepsHost(t, c, e);
    assert HostOk(t, c);
    assert t.conns.Keys <= next.conns.Keys && next.server == t.server;
    forall d | d in next.children ensures HostOk(next, d) {
      if d != c {
        assert HostOk(t, d);
        var link := t.children[d].link;
        assert link.Some? ==> link.value in next.conns && next.conns[link.value] == t.conns[link.value] by {
          hide PairOk, ChildOk, ServerOk;
          ChildKeepsLink(t, c, e);
        }
      }
    }
  }

  /** Only the mover's own connection changes, or a new one appears. */
  lemma ChildKeepsLink(t: World, c: ChildId, e: ChildEvent)
    requires c in t.children && ChildEnabled(t, t.children[c], e)
    ensures forall l :: l in t.conns && t.children[c].link != Some(l) ==>
      l in ChildStep(t, c, e).conns && ChildStep(t, c, e).conns[l] == t.conns[l]
  {
  }

  lemma {:induction false} RunKeeps(hosts: set<ChildId>, events: seq<Event>)
    ensures Inv(Run(hosts, events))
  {
    if events == [] {
      forall c | c in Init(hosts).children ensures HostOk(Init(hosts), c) { }
    } else {
      RunKeeps(hosts, events[..|events| - 1]);
      var before := Run(hosts, events[..|events| - 1]);
      var e := events[|events| - 1];
      hide Inv, ServerStep, ChildStep;
      if Enabled(before, e) {
        match e {
          case AtServer(w) => ServerStepKeeps(before, w);
          case AtChild(c, w) => ChildStepKeeps(before, c, w);
        }
      }
    }
  }

  // ---------------------------------------------------------------------------------------------
  // The theorems

  /** The child runs `version`, or holds it prepared with the commit first among the reload frames on its way. */
  ghost predicate InStep(ch: Child, version: nat) {
    || (ch.current == version && !CommitPending(ch.inbox))
    || (PreparedOp(ch) && ch.machine.op.value.version == version
        && exists i :: 0 <= i < |ch.inbox| && ch.inbox[i] == Commit(ch.machine.op.value.id) && Quiet(ch.inbox[..i]))
  }

  /** What a child whose link the server holds open and synced may rely on. */
  ghost predicate SyncedLink(t: World, c: ChildId) {
    c in t.children && t.children[c].link.Some? && t.children[c].link.value in t.conns
    && t.conns[t.children[c].link.value].isOpen && t.conns[t.children[c].link.value].standing.Synced?
  }

  /**
    * In every run: no child runs a code version above the server's, and every open synced child runs the
    * server's current one or holds it prepared with its commit already on the way.
    */
  lemma ChildrenInStep(hosts: set<ChildId>, events: seq<Event>, c: ChildId)
    requires c in Run(hosts, events).children
    ensures Run(hosts, events).children[c].current <= Run(hosts, events).server.current
    ensures SyncedLink(Run(hosts, events), c) ==>
      InStep(Run(hosts, events).children[c], Run(hosts, events).server.current)
  {
    var t := Run(hosts, events);
    RunKeeps(hosts, events);
    assert HostOk(t, c);
    var ch := t.children[c];
    if SyncedLink(t, c) && CommitPending(ch.inbox) {
      PendingIsPrepared(t.server, ch);
      var i :| 0 <= i < |ch.inbox| && ch.inbox[i].Commit?;
      assert FrameOk(t.server, ch, i);
    }
  }

  /**
    * A frame of a root of version v never reaches a child before it committed v, nor after it was allowed
    * to retire v.
    */
  lemma RootsArriveInTime(hosts: set<ChildId>, events: seq<Event>, c: ChildId)
    requires c in Run(hosts, events).children
    ensures var ch := Run(hosts, events).children[c];
      ch.inbox != [] && ch.inbox[0].Root? ==> ch.allowed < ch.inbox[0].version <= ch.current
  {
    RunKeeps(hosts, events);
    var t := Run(hosts, events);
    assert HostOk(t, c);
    var ch := t.children[c];
    if ch.inbox != [] { assert FrameOk(t.server, ch, 0); }
  }

  /**
    * A child with a parent link retires only what the server no longer retains; no permission on its way
    * says more.
    */
  lemma RetiresAfterTheServer(hosts: set<ChildId>, events: seq<Event>, c: ChildId)
    requires c in Run(hosts, events).children
    ensures var t := Run(hosts, events);
      var ch := t.children[c];
      && ch.allowed < Oldest(t.server)
      && (forall i :: 0 <= i < |ch.inbox| && ch.inbox[i].Retire? ==> ch.inbox[i].version < Oldest(t.server))
      && (ch.link.Some? && ChildEnabled(t, ch, RetireAllowed) ==> ch.previous.value < Oldest(t.server))
  {
    RunKeeps(hosts, events);
    var t := Run(hosts, events);
    assert HostOk(t, c);
    var ch := t.children[c];
    forall i | 0 <= i < |ch.inbox| && ch.inbox[i].Retire? ensures ch.inbox[i].version < Oldest(t.server) {
      assert FrameOk(t.server, ch, i);
    }
  }

  /**
    * The permission a prepare needs is always there first: when a child reads a prepare, its parent already
    * allowed it to retire its previous code version, so it waits for its own roots only.
    */
  lemma PreparesNeverWaitForTheParent(hosts: set<ChildId>, events: seq<Event>, c: ChildId)
    requires c in Run(hosts, events).children
    ensures var ch := Run(hosts, events).children[c];
      ch.inbox != [] && ch.inbox[0].Prepare? && ch.previous.Some? ==> ch.previous.value <= ch.allowed
  {
    RunKeeps(hosts, events);
    var t := Run(hosts, events);
    assert HostOk(t, c);
    var ch := t.children[c];
    if ch.inbox != [] && ch.inbox[0].Prepare? {
      assert FrameOk(t.server, ch, 0);
      ReadOtherKeepsInbox(t.server, ch);
    }
  }
}

/**
  * Cross-host reload as a transition system: one server, any number of child hosts, links that die at any
  * moment, hosts that connect while the server reloads or behind its code version. Links are FIFO. Every
  * await of the source is a step of its own.
  */
module Cluster {

  import opened Streams
  import C = ChildOperations

  type ConnId = nat
  type ChildId = nat

  /** Frames from the server to a child. `Root` stands for any frame of a root of that code version. */
  datatype Down =
    | Prepare(id: nat, version: nat)
    | Commit(id: nat)
    | Abort(id: nat)
    | Retire(version: nat)
    | Root(version: nat)

  datatype Up = Hello(version: nat) | Vote(id: nat, ok: bool)

  /** The reload the server runs with one child: a vote awaited, given, or failed, until it decides. */
  datatype Txn =
    | NoTxn
    | Awaiting(id: nat, version: nat)
    | Voted(id: nat, version: nat)
    | Failed(id: nat, version: nat)

  /**
    * `Fresh`: no hello yet. `Deferred`: said hello during a reload. `Behind`: fenced, being reconciled.
    * `Synced`: usable, and it stays so.
    */
  datatype Standing = Fresh | Deferred(version: nat) | Behind | Synced

  /** The server's end of a link; `inbox` is on its way up. `peer` is `peerCodeVersion` (0: unknown). */
  datatype Conn = Conn(
    child: ChildId,
    isOpen: bool,
    standing: Standing,
    peer: nat,
    txn: Txn,
    inbox: seq<Up>
  )

  datatype Local = Pending | Ready | Unready

  /** `Finishing`: decided; the local rollback, if any, and `endReload` remain. */
  datatype Phase =
    | Idle
    | Loading(version: nat, synced: set<ConnId>)
    | Preparing(id: nat, version: nat, participants: set<ConnId>, local: Local)
    | Finishing

  /** `retired` remembers the last code version this host retired (0: none yet). */
  datatype Server = Server(
    current: nat,
    previous: Option<nat>,
    retired: nat,
    versions: nat,
    phase: Phase,
    nextId: nat
  )

  /** A child host. `link` is its end of the parent link, and `inbox` what is on its way down it. */
  datatype Child = Child(
    current: nat,
    previous: Option<nat>,
    allowed: nat,
    machine: C.Machine,
    link: Option<ConnId>,
    inbox: seq<Down>
  )

  datatype World = World(server: Server, conns: map<ConnId, Conn>, children: map<ChildId, Child>)

  /** A host that just started: code version 1, nothing else. */
  const FIRST := Child(1, None, 0, C.Init(), None, [])

  function Init(hosts: set<ChildId>): World {
    World(Server(1, None, 0, 1, Idle, 0), map[], map c | c in hosts :: FIRST)
  }

  // ---------------------------------------------------------------------------------------------
  // The server

  datatype ServerEvent =
    | StartReload
    | LoadFails
    | SendPrepares
    | LocalPrepared
    | LocalFails(loaded: bool)
    | DecideCommit
    | DecideAbort
    | EndReload
    | RetirePrevious
    | Receive(l: ConnId)
    | VoteDeadline(l: ConnId)
    | CloseConn(l: ConnId)
    | Reconcile(l: ConnId)
    | DecideReconcile(l: ConnId)
    | GiveUp(l: ConnId)
    | SendRoot(l: ConnId, version: nat)

  /** The oldest code version the server retains. */
  function Oldest(s: Server): nat { if s.previous.Some? then s.previous.value else s.current }

  /** `announceRetired`: everything below the oldest retained code version. */
  function Announce(s: Server): seq<Down> {
    if Oldest(s) > 1 then [Retire(Oldest(s) - 1)] else []
  }

  /** `peerHello`. */
  function Greet(s: Server, k: Conn, version: nat): (Conn, seq<Down>) {
    if version > s.current then (Shut(k), [])
    else if s.phase != Idle then (k.(peer := version, standing := Deferred(version)), [])
    else if version == s.current then (k.(peer := version, standing := Synced), Announce(s))
    else (k.(peer := version, standing := Behind), [])
  }

  /** A closed link fails the vote awaited on it. */
  function Shut(k: Conn): Conn {
    k.(isOpen := false, txn := if k.txn.Awaiting? then Failed(k.txn.id, k.txn.version) else k.txn)
  }

  function OnUp(s: Server, k: Conn): (Conn, seq<Down>)
    requires k.inbox != []
  {
    var rest := k.(inbox := k.inbox[1..]);
    match k.inbox[0]
    case Hello(version) => Greet(s, rest, version)
    case Vote(id, ok) =>
      if k.txn.Awaiting? && k.txn.id == id
      then (rest.(txn := if ok then Voted(id, k.txn.version) else Failed(id, k.txn.version)), [])
      else (rest, [])
  }

  /** One round of `reconcileChild`. */
  function OnReconcile(s: Server, k: Conn): (Conn, seq<Down>) {
    if k.peer == s.current then (k.(standing := Synced), Announce(s))
    else (k.(txn := Awaiting(s.nextId, s.current)), Announce(s) + [Prepare(s.nextId, s.current)])
  }

  function OnReconcileVote(s: Server, k: Conn): (Conn, seq<Down>)
    requires k.txn.Voted?
  {
    if s.current != k.txn.version then (k.(txn := NoTxn), [Abort(k.txn.id)])
    else (k.(txn := NoTxn, peer := k.txn.version), [Commit(k.txn.id)])
  }

  /** What a server event does to connection `l`: its new state and the frames sent on it. */
  function React(s: Server, l: ConnId, k: Conn, e: ServerEvent): (Conn, seq<Down>)
    requires Timely(s, e)
    requires Target(e) == Some(l) ==> Apt(s, k, e)
  {
    match e
    case SendPrepares =>
      if l in s.phase.synced && k.isOpen
      then (k.(txn := Awaiting(s.nextId, s.phase.version)), [Prepare(s.nextId, s.phase.version)])
      else (k, [])
    case DecideCommit =>
      if l in s.phase.participants then (k.(txn := NoTxn, peer := s.phase.version), [Commit(s.phase.id)]) else (k, [])
    case DecideAbort =>
      if l in s.phase.participants then (k.(txn := NoTxn), [Abort(s.phase.id)]) else (k, [])
    case EndReload =>
      if k.isOpen && k.standing.Deferred? then Greet(s.(phase := Idle), k, k.standing.version) else (k, [])
    case RetirePrevious => (k, [Retire(s.previous.value)])
    case Receive(at) => if at == l then OnUp(s, k) else (k, [])
    case VoteDeadline(at) => if at == l then (k.(txn := Failed(k.txn.id, k.txn.version)), []) else (k, [])
    case CloseConn(at) => if at == l then (Shut(k), []) else (k, [])
    case Reconcile(at) => if at == l then OnReconcile(s, k) else (k, [])
    case DecideReconcile(at) => if at == l then OnReconcileVote(s, k) else (k, [])
    case GiveUp(at) => if at == l then (Shut(k), []) else (k, [])
    case SendRoot(at, version) => (k, if at == l then [Root(version)] else [])
    case _ => (k, [])
  }

  /** The connection a server event is about. */
  function Target(e: ServerEvent): Option<ConnId> {
    match e
    case Receive(l) => Some(l)
    case VoteDeadline(l) => Some(l)
    case CloseConn(l) => Some(l)
    case Reconcile(l) => Some(l)
    case DecideReconcile(l) => Some(l)
    case GiveUp(l) => Some(l)
    case SendRoot(l, _) => Some(l)
    case _ => None
  }

  function ServerNext(s: Server, conns: map<ConnId, Conn>, e: ServerEvent): Server
    requires Timely(s, e)
  {
    match e
    case StartReload =>
      s.(phase := Loading(s.versions + 1, set l | l in conns && conns[l].isOpen && conns[l].standing == Synced))
    case LoadFails => s.(phase := Finishing)
    case SendPrepares =>
      var participants := set l | l in s.phase.synced && l in conns && conns[l].isOpen;
      s.(phase := Preparing(s.nextId, s.phase.version, participants, Pending), nextId := s.nextId + 1)
    case LocalPrepared => s.(phase := s.phase.(local := Ready), versions := s.phase.version)
    case LocalFails(loaded) =>
      s.(phase := s.phase.(local := Unready), versions := if loaded then s.phase.version else s.versions)
    case DecideCommit => s.(current := s.phase.version, previous := Some(s.current), phase := Finishing)
    case DecideAbort => s.(phase := Finishing)
    case EndReload => s.(phase := Idle)
    case RetirePrevious => s.(previous := None, retired := s.previous.value)
    case Reconcile(l) => s.(nextId := s.nextId + 1)
    case _ => s
  }

  /** Where in its own reload the server must be for `e`. */
  predicate Timely(s: Server, e: ServerEvent) {
    match e
    case StartReload => s.phase.Idle?
    case LoadFails => s.phase.Loading?
    // `waitForRetirement` is over: no previous code version is left.
    case SendPrepares => s.phase.Loading? && s.previous.None?
    case LocalPrepared => s.phase.Preparing? && s.phase.local.Pending?
    case LocalFails(_) => s.phase.Preparing? && s.phase.local.Pending?
    case DecideCommit => s.phase.Preparing? && s.phase.local.Ready?
    case DecideAbort => s.phase.Preparing? && !s.phase.local.Pending?
    case EndReload => s.phase.Finishing?
    case RetirePrevious => s.previous.Some?
    case Reconcile(_) => s.phase.Idle?
    case SendRoot(_, version) => version == s.current || s.previous == Some(version)
    case _ => true
  }

  /** What the connection `e` is about must look like. */
  predicate Apt(s: Server, k: Conn, e: ServerEvent) {
    match e
    case Receive(_) => k.isOpen && k.inbox != []
    case VoteDeadline(_) => k.txn.Awaiting?
    case CloseConn(_) => k.isOpen
    case Reconcile(_) => k.isOpen && k.standing.Behind? && k.txn.NoTxn?
    case DecideReconcile(_) => k.standing.Behind? && k.txn.Voted?
    case GiveUp(_) => k.isOpen && k.standing.Behind? && k.txn.Failed?
    // Nothing is routed to a child before it is synced.
    case SendRoot(_, _) => k.isOpen && k.standing.Synced?
    case _ => true
  }

  /** All votes settled (`Promise.allSettled`). */
  predicate Settled(t: World, l: ConnId) { l in t.conns && (t.conns[l].txn.Voted? || t.conns[l].txn.Failed?) }

  predicate ServerEnabled(t: World, e: ServerEvent) {
    && Timely(t.server, e)
    && (Target(e).Some? ==> Target(e).value in t.conns && Apt(t.server, t.conns[Target(e).value], e))
    && (e.DecideCommit? ==> forall l :: l in t.server.phase.participants ==> l in t.conns && t.conns[l].txn.Voted?)
    && (e.DecideAbort? ==>
          && (forall l :: l in t.server.phase.participants ==> Settled(t, l))
          && (t.server.phase.local.Unready? || exists l :: l in t.server.phase.participants && t.conns[l].txn.Failed?))
  }

  /** Frames sent on an open connection reach the child while its end of the link is this one. */
  function Delivered(s: Server, l: ConnId, k: Conn, ch: Child, e: ServerEvent): Child
    requires Timely(s, e)
    requires Target(e) == Some(l) ==> Apt(s, k, e)
  {
    if k.isOpen then ch.(inbox := ch.inbox + React(s, l, k, e).1) else ch
  }

  function ServerStep(t: World, e: ServerEvent): World
    requires ServerEnabled(t, e)
  {
    var s := t.server;
    World(
      ServerNext(s, t.conns, e),
      map l | l in t.conns :: React(s, l, t.conns[l], e).0,
      map c | c in t.children ::
        var ch := t.children[c];
        if ch.link.Some? && ch.link.value in t.conns
        then Delivered(s, ch.link.value, t.conns[ch.link.value], ch, e)
        else ch)
  }

  // ---------------------------------------------------------------------------------------------
  // The children

  datatype ChildEvent =
    | Connect(l: ConnId)
    | LoseLink
    | ReceiveDown
    | Work(e: C.Event)
    | RetireAllowed

  /** What only the host itself makes happen: its awaits settling, a reload of its own that fails. */
  predicate Internal(e: C.Event) {
    !e.PrepareFrame? && !e.CommitFrame? && !e.AbortFrame? && !e.ParentLost?
  }

  /**
    * A prepare succeeds only for a newer code version and once the previous one retired. A child retires
    * when its parent allowed it, or when it has no parent link.
    */
  predicate ChildEnabled(t: World, ch: Child, e: ChildEvent) {
    match e
    case Connect(l) => ch.link.None? && l !in t.conns
    case LoseLink => ch.link.Some?
    case ReceiveDown => ch.link.Some? && ch.inbox != []
    case Work(w) =>
      && Internal(w) && C.Enabled(ch.machine, w)
      && (w == C.PrepareSettled(true) ==> ch.previous.None? && ch.machine.op.value.version > ch.current)
    case RetireAllowed => ch.previous.Some? && (ch.link.None? || ch.previous.value <= ch.allowed)
  }

  function OnDown(ch: Child): Child
    requires ch.link.Some? && ch.inbox != []
  {
    var rest := ch.(inbox := ch.inbox[1..]);
    match ch.inbox[0]
    case Prepare(id, version) => rest.(machine := C.OnPrepare(ch.machine, ch.link.value, id, version))
    case Commit(id) =>
      var done := rest.(machine := C.OnCommit(ch.machine, id));
      if C.Commits(ch.machine, id)
      then done.(previous := Some(ch.current), current := ch.machine.op.value.version)
      else done
    case Abort(id) => rest.(machine := C.OnAbort(ch.machine, id))
    case Retire(version) => rest.(allowed := if version > ch.allowed then version else ch.allowed)
    case Root(_) => rest
  }

  function ChildNext(t: World, ch: Child, e: ChildEvent): Child
    requires ChildEnabled(t, ch, e)
  {
    match e
    case Connect(l) => ch.(link := Some(l), inbox := [])
    case LoseLink => ch.(link := None, inbox := [], machine := C.OnParentLost(ch.machine))
    case ReceiveDown => OnDown(ch)
    case Work(w) => ch.(machine := C.Step(ch.machine, w))
    case RetireAllowed => ch.(previous := None)
  }

  /** The votes of `ballots` meant for link `l`. */
  function VotesFor(ballots: seq<C.Ballot>, l: ConnId): seq<Up> {
    if ballots == [] then []
    else VotesFor(ballots[..|ballots| - 1], l)
         + if ballots[|ballots| - 1].link == l
           then [Vote(ballots[|ballots| - 1].id, ballots[|ballots| - 1].ok)]
           else []
  }

  /** A new link starts with the child's hello; votes go out on it while it is the child's end of it. */
  function ChildStep(t: World, c: ChildId, e: ChildEvent): World
    requires c in t.children && ChildEnabled(t, t.children[c], e)
  {
    var ch := ChildNext(t, t.children[c], e);
    var children := t.children[c := ch.(machine := ch.machine.(ballots := []))];
    if e.Connect?
    then t.(children := children, conns := t.conns[e.l := Conn(c, true, Fresh, 0, NoTxn, [Hello(ch.current)])])
    else if ch.link.Some? && ch.link.value in t.conns
    then
      var k := t.conns[ch.link.value];
      t.(children := children,
         conns := t.conns[ch.link.value := k.(inbox := k.inbox + VotesFor(ch.machine.ballots, ch.link.value))])
    else t.(children := children)
  }

  datatype Event = AtServer(e: ServerEvent) | AtChild(c: ChildId, w: ChildEvent)

  predicate Enabled(t: World, e: Event) {
    match e
    case AtServer(w) => ServerEnabled(t, w)
    case AtChild(c, w) => c in t.children && ChildEnabled(t, t.children[c], w)
  }

  function Step(t: World, e: Event): World
    requires Enabled(t, e)
  {
    match e
    case AtServer(w) => ServerStep(t, w)
    case AtChild(c, w) => ChildStep(t, c, w)
  }

  /** A run skips the events that cannot happen where it is. */
  function Run(hosts: set<ChildId>, events: seq<Event>): World {
    if events == [] then Init(hosts)
    else
      var before := Run(hosts, events[..|events| - 1]);
      var e := events[|events| - 1];
      if Enabled(before, e) then Step(before, e) else before
  }
}

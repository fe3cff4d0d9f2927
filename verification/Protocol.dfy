/** The concurrent protocol between the forward manager (`sshd/forward.go`), the
    coordinator (`coordinator.go`) and the per-connection goroutine
    (`sshd/server.go`), as a labelled transition system.

    Shared state is split the way the locks split it. `store` is guarded by
    Store.mu, whose critical sections are single map operations, so every store
    access is one step. `table`, `states` and the forward pointers are guarded by
    Manager.mu, which is the explicit field `mu`: RegisterConn and StartForward
    read the store and the clock while they hold it, so they are cut into
    micro-steps and other threads' store steps may land in between. Critical
    sections that touch only manager state (Teardown, CancelForward,
    OnConnClosed) are one step taken while `mu` is free. What the code does after
    unlocking (closing listeners and connections) is again one step per call.

    Go pointers are identities: a `Sid` names a leaseState, an `Fid` a forward. A
    connection is named by the goroutine that serves it. */
module Protocol {
  import opened Wrappers

  type Id = string
  type Tid = nat
  type Sid = nat
  type Fid = nat

  datatype Lease = Lease(port: int, expires: int)

  datatype LeaseState = LeaseState(conn: Tid, fwd: Option<Fid>)

  datatype Forward = Forward(port: int, open: bool)

  /** The coordinator call a Teardown belongs to. */
  datatype Task = RevokeTask | SweepTask(cutoff: int, todo: set<Id>)

  /** What a thread does once it has closed what it unlinked. */
  datatype Cont =
    | BackToServe(id: Id) // RegisterConn: the caller starts serving
    | EndSession          // OnConnClosed: the goroutine ends
    | EndTear(k: Task)    // Teardown: back to RevokeLease or SweepExpired

  datatype PC =
    // connection goroutine
    | Dial(id: Id)                         // authenticated, about to call RegisterConn
    | RegLocked(id: Id)                    // holds mu
    | RegRead(id: Id, l: Lease)            // holds mu, Get returned the copy l
    | RegOk(id: Id)                        // holds mu, l was not expired
    | Serve(id: Id)                        // in handleGlobalRequests
    | StLocked(id: Id)                     // StartForward, holds mu
    | StRead(id: Id, l: Lease)             // holds mu, Get returned the copy l
    | StOk(id: Id, l: Lease)               // holds mu, l was not expired
    | StBound(id: Id, f: Fid)              // holds mu, net.Listen succeeded
    | Refused(id: Id)                      // StartForward returned ErrLeaseGone
    | CanClose(id: Id, f: Fid)             // CancelForward took f out, must close it
    | Leaving(id: Id)                      // request loop over, about to call OnConnClosed
    | Hangup                               // about to close its own connection
    // any thread that has unlinked a leaseState
    | Closing(sid: Sid, fwdDone: bool, k: Cont)
    // coordinator threads
    | Tear(id: Id, task: Task)             // confirmed gone or expired, Teardown still to run
    | SwBegin(cutoff: int)
    | SwLoop(cutoff: int, todo: set<Id>)
    | SwDone(cutoff: int)
    | Done

  datatype State = State(
    now: int,
    store: map<Id, Lease>,
    mu: Option<Tid>,
    table: map<Id, Sid>,
    states: map<Sid, LeaseState>,
    fwds: map<Fid, Forward>,
    closedConns: set<Tid>,
    pcs: map<Tid, PC>)

  /** One label per micro-step; the arguments resolve every nondeterministic choice. */
  datatype Step =
    | OnStore(e: StoreEvent)                // the clock, Create and Extend
    | OnRegister(t: Tid, r: RegisterEvent)  // handleConn up to the end of RegisterConn
    | OnStart(t: Tid, f: StartEvent)        // StartForward
    | OnSession(t: Tid, n: SessionEvent)    // CancelForward, OnConnClosed, hanging up
    | OnClose(t: Tid, c: CloseEvent)        // what a thread does with the leaseState it unlinked
    | OnCoordinator(t: Tid, d: CoordinatorEvent) // RevokeLease and SweepExpired

  datatype StoreEvent = Tick(to: int) | Create(id: Id, port: int, dur: int) | Extend(id: Id, dur: int)

  datatype RegisterEvent = Connect(id: Id) | RegLock | RegGet | RegCheck | RegInstall(id: Id, sid: Sid)

  datatype StartEvent =
    | StLock | StGet | StCheck | StGone | StDuplicate | StListenFails | StListen(f: Fid) | StInstall

  datatype SessionEvent = Cancel(id: Id) | CancelClose | CloseRefused | Leave | ConnClosed(id: Id) | HangUp

  datatype CloseEvent = CloseFwd | CloseConn

  datatype CoordinatorEvent =
    | Revoke(id: Id)
    | TearCut(id: Id)
    | SweepStart
    | SweepSnapshot
    | SweepSkip(id: Id)
    | SweepMark(id: Id, deleted: bool)
    | SweepEnd

  predicate HoldsMu(pc: PC) {
    pc.RegLocked? || pc.RegRead? || pc.RegOk? || pc.StLocked? || pc.StRead? || pc.StOk? || pc.StBound?
  }

  predicate At(s: State, t: Tid, pc: PC) {
    t in s.pcs && s.pcs[t] == pc
  }

  predicate Expired(l: Lease, now: int) {
    l.expires <= now
  }

  /** The manager's leaseState for `id` exists and belongs to `conn`. */
  predicate Registered(s: State, id: Id, conn: Tid) {
    id in s.table && s.table[id] in s.states && s.states[s.table[id]].conn == conn
  }

  function Goto(s: State, t: Tid, pc: PC): State {
    s.(pcs := s.pcs[t := pc])
  }

  function Unlock(s: State, t: Tid, pc: PC): State {
    s.(mu := None, pcs := s.pcs[t := pc])
  }

  function Lock(s: State, t: Tid, pc: PC): State {
    s.(mu := Some(t), pcs := s.pcs[t := pc])
  }

  function ShutForward(s: State, f: Fid): State {
    if f in s.fwds then s.(fwds := s.fwds[f := s.fwds[f].(open := false)]) else s
  }

  function Resume(k: Cont): PC {
    match k
    case BackToServe(id) => Serve(id)
    case EndSession => Done
    case EndTear(RevokeTask) => Done
    case EndTear(SweepTask(c, todo)) => SwLoop(c, todo)
  }

  // ---------------------------------------------------------------- store

  /** Durations are positive because clampDuration returns at least MinLeaseSeconds,
      and a port is handed out only while no lease holds it. */
  predicate EnabledStore(s: State, e: StoreEvent) {
    match e
    case Tick(to) => s.now <= to
    case Create(id, port, dur) =>
      id !in s.store && dur > 0 && (forall i :: i in s.store ==> s.store[i].port != port)
    case Extend(id, dur) => id in s.store && dur > 0
  }

  function ApplyStore(s: State, e: StoreEvent): State
    requires EnabledStore(s, e)
  {
    match e
    case Tick(to) => s.(now := to)
    case Create(id, port, dur) => s.(store := s.store[id := Lease(port, s.now + dur)])
    case Extend(id, dur) =>
      s.(store := s.store[id := s.store[id].(expires := s.store[id].expires + dur)])
  }

  // ---------------------------------------------------------------- RegisterConn

  predicate EnabledRegister(s: State, t: Tid, r: RegisterEvent) {
    match r
    case Connect(id) => t !in s.pcs
    case RegLock => t in s.pcs && s.pcs[t].Dial? && s.mu.None?
    case RegGet => t in s.pcs && s.pcs[t].RegLocked?
    case RegCheck => t in s.pcs && s.pcs[t].RegRead?
    case RegInstall(id, sid) => At(s, t, RegOk(id)) && sid !in s.states
  }

  function ApplyRegister(s: State, t: Tid, r: RegisterEvent): State
    requires EnabledRegister(s, t, r)
  {
    match r
    case Connect(id) => Goto(s, t, Dial(id))
    case RegLock => Lock(s, t, RegLocked(s.pcs[t].id))
    case RegGet =>
      var id := s.pcs[t].id;
      if id in s.store then Goto(s, t, RegRead(id, s.store[id])) else Unlock(s, t, Hangup)
    case RegCheck =>
      if Expired(s.pcs[t].l, s.now) then Unlock(s, t, Hangup) else Goto(s, t, RegOk(s.pcs[t].id))
    case RegInstall(id, sid) =>
      var next := if id in s.table then Closing(s.table[id], false, BackToServe(id)) else Serve(id);
      Unlock(s, t, next).(table := s.table[id := sid], states := s.states[sid := LeaseState(t, None)])
  }

  // ---------------------------------------------------------------- StartForward

  predicate EnabledStart(s: State, t: Tid, f: StartEvent) {
    match f
    case StLock => t in s.pcs && s.pcs[t].Serve? && s.mu.None?
    case StGet => t in s.pcs && s.pcs[t].StLocked?
    case StCheck => t in s.pcs && s.pcs[t].StRead?
    case StGone => t in s.pcs && s.pcs[t].StOk? && !Registered(s, s.pcs[t].id, t)
    case StDuplicate =>
      t in s.pcs && s.pcs[t].StOk? && Registered(s, s.pcs[t].id, t) &&
      s.states[s.table[s.pcs[t].id]].fwd.Some?
    case StListenFails =>
      t in s.pcs && s.pcs[t].StOk? && Registered(s, s.pcs[t].id, t) &&
      s.states[s.table[s.pcs[t].id]].fwd.None?
    case StListen(f) =>
      t in s.pcs && s.pcs[t].StOk? && Registered(s, s.pcs[t].id, t) &&
      s.states[s.table[s.pcs[t].id]].fwd.None? &&
      f !in s.fwds && (forall g :: g in s.fwds && s.fwds[g].open ==> s.fwds[g].port != s.pcs[t].l.port)
    case StInstall =>
      t in s.pcs && s.pcs[t].StBound? && s.pcs[t].id in s.table && s.table[s.pcs[t].id] in s.states
  }

  function ApplyStart(s: State, t: Tid, f: StartEvent): State
    requires EnabledStart(s, t, f)
  {
    match f
    case StLock => Lock(s, t, StLocked(s.pcs[t].id))
    case StGet =>
      var id := s.pcs[t].id;
      if id in s.store then Goto(s, t, StRead(id, s.store[id])) else Unlock(s, t, Refused(id))
    case StCheck =>
      if Expired(s.pcs[t].l, s.now) then Unlock(s, t, Refused(s.pcs[t].id))
      else Goto(s, t, StOk(s.pcs[t].id, s.pcs[t].l))
    case StGone => Unlock(s, t, Refused(s.pcs[t].id))
    case StDuplicate => Unlock(s, t, Serve(s.pcs[t].id))
    case StListenFails => Unlock(s, t, Serve(s.pcs[t].id))
    case StListen(f) =>
      Goto(s, t, StBound(s.pcs[t].id, f)).(fwds := s.fwds[f := Forward(s.pcs[t].l.port, true)])
    case StInstall =>
      var sid := s.table[s.pcs[t].id];
      Unlock(s, t, Serve(s.pcs[t].id)).(states := s.states[sid := s.states[sid].(fwd := Some(s.pcs[t].f))])
  }

  // ---------------------------------------------------------------- CancelForward, OnConnClosed

  predicate EnabledSession(s: State, t: Tid, n: SessionEvent) {
    match n
    case Cancel(id) => At(s, t, Serve(id)) && s.mu.None?
    case CancelClose => t in s.pcs && s.pcs[t].CanClose?
    case CloseRefused => t in s.pcs && s.pcs[t].Refused?
    case Leave => t in s.pcs && s.pcs[t].Serve?
    case ConnClosed(id) => At(s, t, Leaving(id)) && s.mu.None?
    case HangUp => t in s.pcs && s.pcs[t].Hangup?
  }

  function ApplySession(s: State, t: Tid, n: SessionEvent): State
    requires EnabledSession(s, t, n)
  {
    match n
    case Cancel(id) =>
      if Registered(s, id, t) && s.states[s.table[id]].fwd.Some? then
        var sid := s.table[id];
        Goto(s, t, CanClose(id, s.states[sid].fwd.value)).(states := s.states[sid := s.states[sid].(fwd := None)])
      else Goto(s, t, Serve(id))
    case CancelClose => Goto(ShutForward(s, s.pcs[t].f), t, Serve(s.pcs[t].id))
    case CloseRefused => Goto(s, t, Leaving(s.pcs[t].id)).(closedConns := s.closedConns + {t})
    case Leave => Goto(s, t, Leaving(s.pcs[t].id))
    case ConnClosed(id) =>
      if Registered(s, id, t) then Goto(s, t, Closing(s.table[id], false, EndSession)).(table := s.table - {id})
      else Goto(s, t, Hangup)
    case HangUp => Goto(s, t, Done).(closedConns := s.closedConns + {t})
  }

  // ---------------------------------------------------------------- closing what was unlinked

  predicate EnabledClose(s: State, t: Tid, c: CloseEvent) {
    t in s.pcs && s.pcs[t].Closing? && s.pcs[t].fwdDone == c.CloseConn? && s.pcs[t].sid in s.states
  }

  /** The forward pointer of the unlinked leaseState is read here, after mu was released. */
  function ApplyClose(s: State, t: Tid, c: CloseEvent): State
    requires EnabledClose(s, t, c)
  {
    match c
    case CloseFwd =>
      var f := s.states[s.pcs[t].sid].fwd;
      Goto(if f.Some? then ShutForward(s, f.value) else s, t, s.pcs[t].(fwdDone := true))
    case CloseConn =>
      Goto(s, t, Resume(s.pcs[t].k)).(closedConns := s.closedConns + {s.states[s.pcs[t].sid].conn})
  }

  // ---------------------------------------------------------------- RevokeLease, SweepExpired

  predicate EnabledCoordinator(s: State, t: Tid, d: CoordinatorEvent) {
    match d
    case Revoke(id) => t !in s.pcs && id in s.store
    case TearCut(id) => t in s.pcs && s.pcs[t].Tear? && s.pcs[t].id == id && s.mu.None?
    case SweepStart => t !in s.pcs
    case SweepSnapshot => t in s.pcs && s.pcs[t].SwBegin?
    case SweepSkip(id) =>
      t in s.pcs && s.pcs[t].SwLoop? && id in s.pcs[t].todo &&
      (id !in s.store || !Expired(s.store[id], s.pcs[t].cutoff))
    case SweepMark(id, deleted) =>
      t in s.pcs && s.pcs[t].SwLoop? && id in s.pcs[t].todo &&
      id in s.store && Expired(s.store[id], s.pcs[t].cutoff)
    case SweepEnd => t in s.pcs && s.pcs[t].SwLoop? && s.pcs[t].todo == {}
  }

  /** A Revoke whose row delete fails changes nothing and is not a step. A sweep
      whose row delete fails still goes on to Teardown. */
  function ApplyCoordinator(s: State, t: Tid, d: CoordinatorEvent): State
    requires EnabledCoordinator(s, t, d)
  {
    match d
    case Revoke(id) => Goto(s, t, Tear(id, RevokeTask)).(store := s.store - {id})
    case TearCut(id) =>
      if id in s.table then Goto(s, t, Closing(s.table[id], false, EndTear(s.pcs[t].task))).(table := s.table - {id})
      else Goto(s, t, Resume(EndTear(s.pcs[t].task)))
    case SweepStart => Goto(s, t, SwBegin(s.now))
    case SweepSnapshot =>
      var c := s.pcs[t].cutoff;
      Goto(s, t, SwLoop(c, set i | i in s.store && Expired(s.store[i], c)))
    case SweepSkip(id) => Goto(s, t, SwLoop(s.pcs[t].cutoff, s.pcs[t].todo - {id}))
    case SweepMark(id, deleted) =>
      Goto(s, t, Tear(id, SweepTask(s.pcs[t].cutoff, s.pcs[t].todo - {id})))
        .(store := if deleted then s.store - {id} else s.store)
    case SweepEnd => Goto(s, t, SwDone(s.pcs[t].cutoff))
  }

  // ---------------------------------------------------------------- steps and runs

  predicate Enabled(s: State, a: Step) {
    match a
    case OnStore(e) => EnabledStore(s, e)
    case OnRegister(t, r) => EnabledRegister(s, t, r)
    case OnStart(t, f) => EnabledStart(s, t, f)
    case OnSession(t, n) => EnabledSession(s, t, n)
    case OnClose(t, c) => EnabledClose(s, t, c)
    case OnCoordinator(t, d) => EnabledCoordinator(s, t, d)
  }

  function Apply(s: State, a: Step): State
    requires Enabled(s, a)
  {
    match a
    case OnStore(e) => ApplyStore(s, e)
    case OnRegister(t, r) => ApplyRegister(s, t, r)
    case OnStart(t, f) => ApplyStart(s, t, f)
    case OnSession(t, n) => ApplySession(s, t, n)
    case OnClose(t, c) => ApplyClose(s, t, c)
    case OnCoordinator(t, d) => ApplyCoordinator(s, t, d)
  }

  /** The daemon starts with whatever leases Open rehydrated (on distinct ports),
      an empty manager and no threads. */
  ghost predicate Init(s: State) {
    && DistinctPorts(s.store)
    && s.mu.None? && s.table == map[] && s.states == map[] && s.fwds == map[] && s.pcs == map[]
  }

  ghost predicate DistinctPorts(store: map<Id, Lease>) {
    forall i, j :: i in store && j in store && i != j ==> store[i].port != store[j].port
  }

  ghost predicate Feasible(s: State, tr: seq<Step>)
    decreases |tr|, 0
  {
    tr == [] || (Feasible(s, tr[..|tr| - 1]) && Enabled(Exec(s, tr[..|tr| - 1]), tr[|tr| - 1]))
  }

  ghost function Exec(s: State, tr: seq<Step>): State
    requires Feasible(s, tr)
    decreases |tr|, 1
  {
    if tr == [] then s else Apply(Exec(s, tr[..|tr| - 1]), tr[|tr| - 1])
  }

  // ---------------------------------------------------------------- invariant

  /** Thread t has confirmed that the lease is gone or expired and has not yet run
      Teardown's critical section for it. */
  ghost predicate PendingBy(s: State, t: Tid, id: Id) {
    t in s.pcs && s.pcs[t].Tear? && s.pcs[t].id == id
  }

  ghost predicate Pending(s: State, id: Id) {
    exists t :: PendingBy(s, t, id)
  }

  ghost predicate LiveOrPending(s: State, id: Id) {
    id in s.store || Pending(s, id)
  }

  ghost predicate PortOrPending(s: State, id: Id, port: int) {
    (id in s.store && s.store[id].port == port) || Pending(s, id)
  }

  ghost predicate LockInv(s: State) {
    && (forall t :: t in s.pcs && HoldsMu(s.pcs[t]) ==> s.mu == Some(t))
    && (s.mu.Some? ==> s.mu.value in s.pcs && HoldsMu(s.pcs[s.mu.value]))
  }

  ghost predicate Unlinked(s: State, sid: Sid) {
    forall id :: id in s.table ==> s.table[id] != sid
  }

  /** No leaseState points at f. */
  ghost predicate Detached(s: State, f: Fid) {
    forall sid :: sid in s.states ==> s.states[sid].fwd != Some(f)
  }

  predicate HoldsForward(pc: PC) {
    pc.CanClose? || pc.StBound?
  }

  ghost predicate PointerInv(s: State) {
    && (forall id :: id in s.table ==> s.table[id] in s.states)
    && (forall i, j :: i in s.table && j in s.table && i != j ==> s.table[i] != s.table[j])
    && (forall sid :: sid in s.states && s.states[sid].fwd.Some? ==> s.states[sid].fwd.value in s.fwds)
    && (forall x, y :: x in s.states && y in s.states && x != y && s.states[x].fwd.Some? ==>
          s.states[x].fwd != s.states[y].fwd)
  }

  /** What thread t holds outside the table. */
  ghost predicate ThreadHolds(s: State, t: Tid)
    requires t in s.pcs
  {
    match s.pcs[t]
    case Closing(sid, _, _) => sid in s.states && Unlinked(s, sid)
    case CanClose(_, f) => f in s.fwds && Detached(s, f)
    case StBound(id, f) =>
      && f in s.fwds && Detached(s, f)
      && id in s.table && s.table[id] in s.states && s.states[s.table[id]] == LeaseState(t, None)
    case _ => true
  }

  /** Two threads never hold the same leaseState or the same forward. */
  predicate Apart(x: PC, y: PC) {
    && (x.Closing? && y.Closing? ==> x.sid != y.sid)
    && (HoldsForward(x) && HoldsForward(y) ==> x.f != y.f)
  }

  ghost predicate HoldingInv(s: State) {
    && (forall t :: t in s.pcs ==> ThreadHolds(s, t))
    && (forall t, u :: t in s.pcs && u in s.pcs && t != u ==> Apart(s.pcs[t], s.pcs[u]))
  }

  ghost predicate LinkedAt(s: State, id: Id, f: Fid) {
    id in s.table && s.table[id] in s.states && s.states[s.table[id]].fwd == Some(f)
  }

  /** Thread t is about to close f, or is about to install it while holding mu. */
  ghost predicate Owns(s: State, t: Tid, f: Fid) {
    t in s.pcs &&
    ( || (s.pcs[t].CanClose? && s.pcs[t].f == f)
      || (s.pcs[t].StBound? && s.pcs[t].f == f)
      || (s.pcs[t].Closing? && !s.pcs[t].fwdDone && s.pcs[t].sid in s.states && s.states[s.pcs[t].sid].fwd == Some(f)))
  }

  ghost predicate Accounted(s: State, f: Fid) {
    (exists id :: LinkedAt(s, id, f)) || (exists t :: Owns(s, t, f))
  }

  ghost predicate ForwardInv(s: State) {
    forall f :: f in s.fwds && s.fwds[f].open ==> Accounted(s, f)
  }

  /** A table entry is backed by a live lease, on its port, or is about to be torn down. */
  ghost predicate EntryBacked(s: State, id: Id)
    requires id in s.table
  {
    && LiveOrPending(s, id)
    && (forall f :: LinkedAt(s, id, f) && f in s.fwds ==> PortOrPending(s, id, s.fwds[f].port))
  }

  /** The same for what a thread holding mu has read and is about to install. */
  ghost predicate ReaderBacked(s: State, t: Tid)
    requires t in s.pcs
  {
    match s.pcs[t]
    case RegRead(id, _) => LiveOrPending(s, id)
    case RegOk(id) => LiveOrPending(s, id)
    case StRead(id, l) => PortOrPending(s, id, l.port)
    case StOk(id, l) => PortOrPending(s, id, l.port)
    case StBound(id, f) => f in s.fwds ==> PortOrPending(s, id, s.fwds[f].port)
    case _ => true
  }

  ghost predicate StoreInv(s: State) {
    && DistinctPorts(s.store)
    && (forall id :: id in s.table ==> EntryBacked(s, id))
    && (forall t :: t in s.pcs ==> ReaderBacked(s, t))
  }

  /** The cutoff of a running or finished sweep and the ids it has not dealt with yet. */
  function SweepOf(pc: PC): Option<(int, set<Id>)> {
    match pc
    case SwLoop(c, todo) => Some((c, todo))
    case SwDone(c) => Some((c, {}))
    case Tear(id, SweepTask(c, todo)) => Some((c, todo + {id}))
    case Closing(_, _, EndTear(SweepTask(c, todo))) => Some((c, todo))
    case _ => None
  }

  ghost predicate PendingByOther(s: State, t: Tid, id: Id) {
    exists u :: u != t && PendingBy(s, u, id)
  }

  /** A registration for `id` is in the table, or will be: it has passed the clock
      check, or will pass it unless the lease expires by the cutoff. */
  ghost predicate Present(s: State, c: int, id: Id) {
    || id in s.table
    || (exists u :: At(s, u, RegOk(id)))
    || (exists u :: u in s.pcs && s.pcs[u].RegRead? && s.pcs[u].id == id && s.pcs[u].l.expires > c)
  }

  ghost predicate Renewed(s: State, t: Tid, c: int, id: Id) {
    (id in s.store && s.store[id].expires > c) || PendingByOther(s, t, id)
  }

  /** Thread t's sweep has dealt with every id outside its to-do set. */
  ghost predicate SweptBy(s: State, t: Tid)
    requires t in s.pcs
  {
    && (s.pcs[t].SwBegin? ==> s.pcs[t].cutoff <= s.now)
    && (SweepOf(s.pcs[t]).Some? ==>
          var (c, todo) := SweepOf(s.pcs[t]).value;
          c <= s.now && forall id :: id !in todo && Present(s, c, id) ==> Renewed(s, t, c, id))
  }

  ghost predicate SweepInv(s: State) {
    forall t :: t in s.pcs ==> SweptBy(s, t)
  }

  /** The lease a connection goroutine has registered for and not yet given up. */
  function SessionOf(pc: PC): Option<Id> {
    match pc
    case Serve(id) => Some(id)
    case StLocked(id) => Some(id)
    case StRead(id, _) => Some(id)
    case StOk(id, _) => Some(id)
    case StBound(id, _) => Some(id)
    case Refused(id) => Some(id)
    case CanClose(id, _) => Some(id)
    case Leaving(id) => Some(id)
    case Closing(_, _, BackToServe(id)) => Some(id)
    case _ => None
  }

  /** Thread u is about to close t's connection. */
  ghost predicate WillHangUp(s: State, u: Tid, t: Tid) {
    u in s.pcs && s.pcs[u].Closing? && s.pcs[u].sid in s.states && s.states[s.pcs[u].sid].conn == t
  }

  /** Thread t's connection, if registered and open, is the tracked one or about to be closed. */
  ghost predicate Tracked(s: State, t: Tid)
    requires t in s.pcs
  {
    SessionOf(s.pcs[t]).Some? && t !in s.closedConns ==>
      Registered(s, SessionOf(s.pcs[t]).value, t) || (exists u :: WillHangUp(s, u, t))
  }

  ghost predicate SessionInv(s: State) {
    forall t :: t in s.pcs ==> Tracked(s, t)
  }

  ghost predicate Inv(s: State) {
    LockInv(s) && PointerInv(s) && HoldingInv(s) && ForwardInv(s) && StoreInv(s) && SweepInv(s) && SessionInv(s)
  }
}

/** What the protocol guarantees, stated over whole runs of `Protocol`. */
module ProtocolTheorems {
  import opened Wrappers
  import opened Protocol
  import opened ProtocolProofs
  import opened ProtocolListeners

  // ---------------------------------------------------------------- revocation

  /** Whatever is installed for a lease, or is about to be, belongs to a live lease
      or has a teardown on its way. */
  lemma InstalledIsLiveOrPending(s0: State, tr: seq<Step>, id: Id)
    requires Init(s0) && Feasible(s0, tr)
    requires
      var s := Exec(s0, tr);
      || id in s.table
      || exists t :: t in s.pcs && (s.pcs[t].RegOk? || s.pcs[t].StOk? || s.pcs[t].StBound?) && s.pcs[t].id == id
    ensures id in Exec(s0, tr).store || Pending(Exec(s0, tr), id)
  {
    RunKeepsInv(s0, tr);
    var s := Exec(s0, tr);
    if id in s.table {
      assert EntryBacked(s, id);
    } else {
      var t :| t in s.pcs && (s.pcs[t].RegOk? || s.pcs[t].StOk? || s.pcs[t].StBound?) && s.pcs[t].id == id;
      assert ReaderBacked(s, t) && ThreadHolds(s, t);
    }
  }

  predicate PastReading(pc: PC, id: Id) {
    (pc.RegRead? || pc.RegOk? || pc.StRead? || pc.StOk? || pc.StBound?) && pc.id == id
  }

  /** The lease is unknown to the store, has no entry, and no thread is past reading it. */
  ghost predicate Down(s: State, id: Id) {
    && id !in s.store && id !in s.table
    && (forall t :: t in s.pcs ==> !PastReading(s.pcs[t], id))
  }

  ghost predicate Creates(a: Step, id: Id) {
    a.OnStore? && a.e.Create? && a.e.id == id
  }

  /** The step takes the lease out of the store. */
  ghost predicate Takes(a: Step, id: Id) {
    a.OnCoordinator? && (a.d == Revoke(id) || a.d == SweepMark(id, true))
  }

  lemma DownFrame(s: State, s': State, t: Tid, id: Id)
    requires Down(s, id) && MovesOnly(s, s', t)
    requires id !in s'.store && id !in s'.table && !PastReading(s'.pcs[t], id)
    ensures Down(s', id)
  {
  }

  lemma DownRegister(s: State, t: Tid, r: RegisterEvent, id: Id)
    requires Down(s, id) && EnabledRegister(s, t, r)
    ensures Down(ApplyRegister(s, t, r), id)
  {
    RegisterFrame(s, t, r);
    DownFrame(s, ApplyRegister(s, t, r), t, id);
  }

  lemma DownStart(s: State, t: Tid, f: StartEvent, id: Id)
    requires Down(s, id) && EnabledStart(s, t, f)
    ensures Down(ApplyStart(s, t, f), id)
  {
    StartFrame(s, t, f);
    DownFrame(s, ApplyStart(s, t, f), t, id);
  }

  lemma DownSession(s: State, t: Tid, n: SessionEvent, id: Id)
    requires Down(s, id) && EnabledSession(s, t, n)
    ensures Down(ApplySession(s, t, n), id)
  {
    SessionFrame(s, t, n);
    DownFrame(s, ApplySession(s, t, n), t, id);
  }

  lemma DownCoordinator(s: State, t: Tid, d: CoordinatorEvent, id: Id)
    requires Down(s, id) && EnabledCoordinator(s, t, d)
    ensures Down(ApplyCoordinator(s, t, d), id)
  {
    CoordinatorFrame(s, t, d);
    DownFrame(s, ApplyCoordinator(s, t, d), t, id);
  }

  lemma DownKept(s: State, a: Step, id: Id)
    requires Down(s, id) && Enabled(s, a) && !Creates(a, id)
    ensures Down(Apply(s, a), id)
  {
    match a
    case OnStore(e) =>
    case OnRegister(t, r) => DownRegister(s, t, r, id);
    case OnStart(t, f) => DownStart(s, t, f, id);
    case OnSession(t, n) => DownSession(s, t, n, id);
    case OnClose(t, c) => CloseFrame(s, t, c); DownFrame(s, ApplyClose(s, t, c), t, id);
    case OnCoordinator(t, d) => DownCoordinator(s, t, d, id);
  }

  lemma FeasiblePrefix(s: State, tr: seq<Step>, k: nat)
    requires Feasible(s, tr) && k <= |tr|
    ensures Feasible(s, tr[..k])
    decreases |tr|
  {
    if k == |tr| {
      assert tr[..k] == tr;
    } else {
      FeasiblePrefix(s, tr[..|tr| - 1], k);
      assert tr[..|tr| - 1][..k] == tr[..k];
    }
  }

  /** The state after the first k steps of a run. */
  ghost function StateAt(s: State, tr: seq<Step>, k: nat): State
    requires Feasible(s, tr) && k <= |tr|
  {
    FeasiblePrefix(s, tr, k);
    Exec(s, tr[..k])
  }

  lemma StateAtStep(s: State, tr: seq<Step>, k: nat)
    requires Feasible(s, tr) && k < |tr|
    ensures Enabled(StateAt(s, tr, k), tr[k]) && StateAt(s, tr, k + 1) == Apply(StateAt(s, tr, k), tr[k])
  {
    FeasiblePrefix(s, tr, k);
    FeasiblePrefix(s, tr, k + 1);
    assert tr[..k + 1][..k] == tr[..k];
  }

  lemma StateAtInv(s: State, tr: seq<Step>, k: nat)
    requires Init(s) && Feasible(s, tr) && k <= |tr|
    ensures Inv(StateAt(s, tr, k))
  {
    FeasiblePrefix(s, tr, k);
    RunKeepsInv(s, tr[..k]);
  }

  lemma {:induction false} AbsentUntilCreated(s: State, tr: seq<Step>, i: nat, k: nat, id: Id)
    requires Feasible(s, tr) && i <= k <= |tr| && id !in StateAt(s, tr, i).store
    requires forall j :: i <= j < k ==> !Creates(tr[j], id)
    ensures id !in StateAt(s, tr, k).store
  {
    if i < k {
      AbsentUntilCreated(s, tr, i, k - 1, id);
      StateAtStep(s, tr, k - 1);
      StoreGrowsByCreate(StateAt(s, tr, k - 1), tr[k - 1], id);
    }
  }

  lemma StoreGrowsByCreate(s: State, a: Step, id: Id)
    requires Enabled(s, a) && id !in s.store && !Creates(a, id)
    ensures id !in Apply(s, a).store
  {
    match a
    case OnStore(e) =>
    case OnRegister(t, r) => RegisterFrame(s, t, r);
    case OnStart(t, f) => StartFrame(s, t, f);
    case OnSession(t, n) => SessionFrame(s, t, n);
    case OnClose(t, c) => CloseFrame(s, t, c);
    case OnCoordinator(t, d) =>
  }

  lemma DownAfterTear(s: State, t: Tid, id: Id)
    requires LockInv(s) && EnabledCoordinator(s, t, TearCut(id)) && id !in s.store
    ensures Down(ApplyCoordinator(s, t, TearCut(id)), id)
  {
    CoordinatorFrame(s, t, TearCut(id));
    assert forall u :: u in s.pcs ==> !HoldsMu(s.pcs[u]);
  }

  lemma DownOnceTorn(s0: State, tr: seq<Step>, i: nat, j: nat, t: Tid, id: Id)
    requires Init(s0) && Feasible(s0, tr) && i < j < |tr|
    requires Takes(tr[i], id) && tr[j] == OnCoordinator(t, TearCut(id))
    requires forall n :: i < n < j ==> !Creates(tr[n], id)
    ensures Down(StateAt(s0, tr, j + 1), id)
  {
    StateAtStep(s0, tr, i);
    AbsentUntilCreated(s0, tr, i + 1, j, id);
    StateAtStep(s0, tr, j);
    StateAtInv(s0, tr, j);
    DownAfterTear(StateAt(s0, tr, j), t, id);
  }

  lemma {:induction false} TornStaysDown(s0: State, tr: seq<Step>, i: nat, j: nat, k: nat, t: Tid, id: Id)
    requires Init(s0) && Feasible(s0, tr) && i < j < k <= |tr|
    requires Takes(tr[i], id) && tr[j] == OnCoordinator(t, TearCut(id))
    requires forall n :: i < n < k ==> !Creates(tr[n], id)
    ensures Down(StateAt(s0, tr, k), id)
    decreases k
  {
    if k == j + 1 {
      DownOnceTorn(s0, tr, i, j, t, id);
    } else {
      TornStaysDown(s0, tr, i, j, k - 1, t, id);
      StateAtStep(s0, tr, k - 1);
      DownKept(StateAt(s0, tr, k - 1), tr[k - 1], id);
    }
  }

  /** Every session of the lease has lost its connection or is about to. */
  ghost predicate Disconnected(s: State, id: Id) {
    forall u :: u in s.pcs && SessionOf(s.pcs[u]) == Some(id) ==> u in s.closedConns || exists y :: WillHangUp(s, y, u)
  }

  lemma DownDisconnects(s: State, id: Id)
    requires SessionInv(s) && Down(s, id)
    ensures Disconnected(s, id)
  {
    forall u | u in s.pcs && SessionOf(s.pcs[u]) == Some(id)
      ensures u in s.closedConns || exists y :: WillHangUp(s, y, u)
    {
      assert Tracked(s, u);
    }
  }

  /** Store first, teardown second: once a revoke, or a sweep that has deleted the row, has run
      Teardown's critical section, nothing is installed for that id, nothing is being installed,
      and no session of it is left that nobody hangs up, until it is created again. */
  lemma RevokedStaysDown(s0: State, tr: seq<Step>, i: nat, j: nat, k: nat, t: Tid, id: Id)
    requires Init(s0) && Feasible(s0, tr) && i < j < k <= |tr|
    requires Takes(tr[i], id) && tr[j] == OnCoordinator(t, TearCut(id))
    requires forall n :: i < n < k ==> !Creates(tr[n], id)
    ensures Down(StateAt(s0, tr, k), id) && Disconnected(StateAt(s0, tr, k), id)
  {
    TornStaysDown(s0, tr, i, j, k, t, id);
    StateAtInv(s0, tr, k);
    DownDisconnects(StateAt(s0, tr, k), id);
  }

  // ---------------------------------------------------------------- sweeping

  /** The cutoff of a sweep, whatever it is doing. */
  function CutoffOf(pc: PC): Option<int> {
    if pc.SwBegin? then Some(pc.cutoff) else if SweepOf(pc).Some? then Some(SweepOf(pc).value.0) else None
  }

  lemma CutoffStep(s: State, t: Tid, d: CoordinatorEvent)
    requires EnabledCoordinator(s, t, d) && t in s.pcs && CutoffOf(s.pcs[t]).Some?
    ensures CutoffOf(ApplyCoordinator(s, t, d).pcs[t]) == CutoffOf(s.pcs[t])
  {
  }

  lemma CutoffKept(s: State, a: Step, t: Tid)
    requires Enabled(s, a) && t in s.pcs && CutoffOf(s.pcs[t]).Some?
    ensures t in Apply(s, a).pcs && CutoffOf(Apply(s, a).pcs[t]) == CutoffOf(s.pcs[t])
  {
    match a
    case OnStore(e) =>
    case OnRegister(u, r) => RegisterFrame(s, u, r);
    case OnStart(u, f) => StartFrame(s, u, f);
    case OnSession(u, n) => SessionFrame(s, u, n);
    case OnClose(u, c) => CloseFrame(s, u, c);
    case OnCoordinator(u, d) =>
      CoordinatorFrame(s, u, d);
      if u == t {
        CutoffStep(s, t, d);
      }
  }

  /** A sweep works to its end with the time at which it began. */
  lemma {:induction false} CutoffIsStart(s0: State, tr: seq<Step>, i: nat, k: nat, t: Tid)
    requires Feasible(s0, tr) && i < k <= |tr| && tr[i] == OnCoordinator(t, SweepStart)
    ensures t in StateAt(s0, tr, k).pcs && CutoffOf(StateAt(s0, tr, k).pcs[t]) == Some(StateAt(s0, tr, i).now)
    decreases k
  {
    StateAtStep(s0, tr, k - 1);
    if i < k - 1 {
      CutoffIsStart(s0, tr, i, k - 1, t);
      CutoffKept(StateAt(s0, tr, k - 1), tr[k - 1], t);
    }
  }

  /** From the moment a sweep has gone through its ids, every entry left in the table belongs to a
      lease that ends after the sweep began, or has another thread's teardown pending; the
      sweep's own failed row deletes do not weaken this. */
  lemma SweepLeavesOnlyRenewed(s0: State, tr: seq<Step>, i: nat, k: nat, t: Tid, id: Id)
    requires Init(s0) && Feasible(s0, tr) && i < k <= |tr| && tr[i] == OnCoordinator(t, SweepStart)
    requires t in StateAt(s0, tr, k).pcs && (StateAt(s0, tr, k).pcs[t].SwDone? || (StateAt(s0, tr, k).pcs[t].SwLoop? && StateAt(s0, tr, k).pcs[t].todo == {}))
    requires id in StateAt(s0, tr, k).table
    ensures
      var s := StateAt(s0, tr, k);
      (id in s.store && s.store[id].expires > StateAt(s0, tr, i).now) || (exists u :: u != t && PendingBy(s, u, id))
  {
    CutoffIsStart(s0, tr, i, k, t);
    StateAtInv(s0, tr, k);
    var s, c := StateAt(s0, tr, k), StateAt(s0, tr, i).now;
    assert SweptBy(s, t) && Present(s, c, id);
    assert Renewed(s, t, c, id);
  }

  ghost predicate RemovedBy(s: State, a: Step, id: Id)
    requires id in s.store
  {
    a.OnCoordinator? &&
    ( || a.d == Revoke(id)
      || (a.d == SweepMark(id, true) && a.t in s.pcs && s.pcs[a.t].SwLoop? &&
          s.store[id].expires <= s.pcs[a.t].cutoff <= s.now))
  }

  /** A lease leaves the store only by its own revoke, or by a sweep that found it
      expired at its cutoff in that very step; the cutoff is never in the future. */
  lemma OnlyRevokedOrExpiredLeave(s0: State, tr: seq<Step>, k: nat, id: Id)
    requires Init(s0) && Feasible(s0, tr) && k < |tr|
    requires id in StateAt(s0, tr, k).store && id !in StateAt(s0, tr, k + 1).store
    ensures RemovedBy(StateAt(s0, tr, k), tr[k], id)
  {
    StateAtStep(s0, tr, k);
    StateAtInv(s0, tr, k);
    Removal(StateAt(s0, tr, k), tr[k], id);
  }

  lemma RemovalByCoordinator(s: State, t: Tid, d: CoordinatorEvent, id: Id)
    requires SweepInv(s) && EnabledCoordinator(s, t, d) && id in s.store && id !in ApplyCoordinator(s, t, d).store
    ensures RemovedBy(s, OnCoordinator(t, d), id)
  {
    assert t in s.pcs ==> SweptBy(s, t);
  }

  lemma Removal(s: State, a: Step, id: Id)
    requires SweepInv(s) && Enabled(s, a) && id in s.store && id !in Apply(s, a).store
    ensures RemovedBy(s, a, id)
  {
    match a
    case OnStore(e) =>
    case OnRegister(t, r) => RegisterFrame(s, t, r);
    case OnStart(t, f) => StartFrame(s, t, f);
    case OnSession(t, n) => SessionFrame(s, t, n);
    case OnClose(t, c) => CloseFrame(s, t, c);
    case OnCoordinator(t, d) => RemovalByCoordinator(s, t, d, id);
  }

  // ---------------------------------------------------------------- ports

  /** An installed forward is bound to the port its lease holds now, or its lease has
      a teardown pending. */
  lemma ForwardOnLeasePort(s0: State, tr: seq<Step>, id: Id, f: Fid)
    requires Init(s0) && Feasible(s0, tr) && LinkedAt(Exec(s0, tr), id, f)
    ensures f in Exec(s0, tr).fwds && PortOrPending(Exec(s0, tr), id, Exec(s0, tr).fwds[f].port)
  {
    RunKeepsInv(s0, tr);
    assert EntryBacked(Exec(s0, tr), id);
  }

  /** A listener on a port that the store allocates to `id` is the one installed for `id`,
      or it is already on its way down: some thread owns it, or its lease has a teardown pending. */
  lemma NoForeignListener(s0: State, tr: seq<Step>, id: Id, f: Fid)
    requires Init(s0) && Feasible(s0, tr)
    requires
      var s := Exec(s0, tr);
      id in s.store && f in s.fwds && s.fwds[f].open && s.fwds[f].port == s.store[id].port
    ensures
      var s := Exec(s0, tr);
      || LinkedAt(s, id, f)
      || (exists t :: Owns(s, t, f))
      || (exists j :: j != id && LinkedAt(s, j, f) && Pending(s, j))
  {
    RunKeepsInv(s0, tr);
    var s := Exec(s0, tr);
    assert Accounted(s, f);
    if j :| LinkedAt(s, j, f) {
      assert EntryBacked(s, j);
    }
  }

  ghost predicate Reachable(s0: State, s: State) {
    exists tr :: Feasible(s0, tr) && Exec(s0, tr) == s
  }

  lemma ReachStep(s0: State, s: State, a: Step, s': State)
    requires Reachable(s0, s) && Enabled(s, a) && Apply(s, a) == s'
    ensures Reachable(s0, s')
  {
    var tr :| Feasible(s0, tr) && Exec(s0, tr) == s;
    assert (tr + [a])[..|tr|] == tr;
    assert Feasible(s0, tr + [a]) && Exec(s0, tr + [a]) == s';
  }

  /** A state of the run below: connection 1 for `id`, revoking thread 2. */
  ghost function Scene(store: map<Id, Lease>, mu: Option<Tid>, pcs: map<Tid, PC>): State {
    State(0, store, mu, map[], map[], map[], {}, pcs)
  }

  lemma ReachRegistered(s0: State, id: Id, l: Lease)
    requires l.expires > 0 && Reachable(s0, Scene(map[id := l], None, map[]))
    ensures Reachable(s0, Scene(map[id := l], None, map[1 := Serve(id)]).(table := map[id := 0], states := map[0 := LeaseState(1, None)]))
  {
    var st := map[id := l];
    ReachStep(s0, Scene(st, None, map[]), OnRegister(1, Connect(id)), Scene(st, None, map[1 := Dial(id)]));
    ReachStep(s0, Scene(st, None, map[1 := Dial(id)]), OnRegister(1, RegLock), Scene(st, Some(1), map[1 := RegLocked(id)]));
    ReachStep(s0, Scene(st, Some(1), map[1 := RegLocked(id)]), OnRegister(1, RegGet), Scene(st, Some(1), map[1 := RegRead(id, l)]));
    ReachStep(s0, Scene(st, Some(1), map[1 := RegRead(id, l)]), OnRegister(1, RegCheck), Scene(st, Some(1), map[1 := RegOk(id)]));
    ReachStep(s0, Scene(st, Some(1), map[1 := RegOk(id)]), OnRegister(1, RegInstall(id, 0)),
      Scene(st, None, map[1 := Serve(id)]).(table := map[id := 0], states := map[0 := LeaseState(1, None)]));
  }

  lemma ReachStart(s0: State, s: State, t: Tid, f: StartEvent, s': State)
    requires Reachable(s0, s) && EnabledStart(s, t, f) && ApplyStart(s, t, f) == s'
    ensures Reachable(s0, s')
  {
    ReachStep(s0, s, OnStart(t, f), s');
  }

  lemma ReachStarting(s0: State, s: State, id: Id, l: Lease)
    requires Reachable(s0, s) && s.now < l.expires && s.store == map[id := l] && s.mu.None? && s.pcs == map[1 := Serve(id)]
    ensures Reachable(s0, s.(mu := Some(1), pcs := map[1 := StOk(id, l)]))
  {
    var s1 := ApplyStart(s, 1, StLock);
    ReachStart(s0, s, 1, StLock, s1);
    var s2 := ApplyStart(s1, 1, StGet);
    ReachStart(s0, s1, 1, StGet, s2);
    var s3 := ApplyStart(s2, 1, StCheck);
    ReachStart(s0, s2, 1, StCheck, s3);
    assert s3 == s.(mu := Some(1), pcs := map[1 := StOk(id, l)]);
  }

  /** Connection 1 is registered and StartForward has read and checked the lease. */
  lemma ReachChecked(s0: State, id: Id, l: Lease) returns (s: State)
    requires s0 == Scene(map[], None, map[]) && l.expires == 10
    ensures Reachable(s0, s)
    ensures s == Scene(map[id := l], Some(1), map[1 := StOk(id, l)]).(table := map[id := 0], states := map[0 := LeaseState(1, None)])
  {
    assert Feasible(s0, []) && Exec(s0, []) == s0;
    ReachStep(s0, s0, OnStore(Create(id, l.port, 10)), Scene(map[id := l], None, map[]));
    ReachRegistered(s0, id, l);
    var s1 := Scene(map[id := l], None, map[1 := Serve(id)]).(table := map[id := 0], states := map[0 := LeaseState(1, None)]);
    ReachStarting(s0, s1, id, l);
    s := s1.(mu := Some(1), pcs := map[1 := StOk(id, l)]);
  }

  ghost predicate StaleListener(s: State, id: Id, f: Fid, p: int, q: int) {
    LinkedAt(s, id, f) && f in s.fwds && s.fwds[f] == Forward(p, true) && id in s.store && s.store[id].port == q
  }

  lemma ReachInstalled(s0: State, s: State, id: Id, l: Lease)
    requires Reachable(s0, s) && At(s, 1, StOk(id, l)) && s.table == map[id := 0] && s.states == map[0 := LeaseState(1, None)]
    requires s.fwds == map[]
    ensures exists s' :: Reachable(s0, s') && s'.store == s.store && LinkedAt(s', id, 0) && 0 in s'.fwds && s'.fwds[0] == Forward(l.port, true)
  {
    var s1 := ApplyStart(s, 1, StListen(0));
    ReachStart(s0, s, 1, StListen(0), s1);
    var s2 := ApplyStart(s1, 1, StInstall);
    ReachStart(s0, s1, 1, StInstall, s2);
    assert LinkedAt(s2, id, 0);
  }

  /** A listener is up for a lease that the store no longer has. */
  ghost predicate OrphanListener(s: State, id: Id, f: Fid, p: int) {
    LinkedAt(s, id, f) && f in s.fwds && s.fwds[f] == Forward(p, true) && id !in s.store
  }

  lemma ReachRevoked(s0: State, s: State, id: Id, pc: PC)
    requires Reachable(s0, s) && id in s.store && s.store.Keys == {id} && s.pcs == map[1 := pc]
    ensures Reachable(s0, s.(store := map[], pcs := map[1 := pc, 2 := Tear(id, RevokeTask)]))
  {
    var s1 := s.(store := map[], pcs := map[1 := pc, 2 := Tear(id, RevokeTask)]);
    assert s.store - {id} == map[];
    assert s.pcs[2 := Tear(id, RevokeTask)] == s1.pcs;
    ReachStep(s0, s, OnCoordinator(2, Revoke(id)), s1);
  }

  /** When the lease is revoked between StartForward's store read and its install, the listener
      goes up although the store has no such lease any more. */
  lemma OrphanListenerIsReachable(s0: State, id: Id, p: int)
    requires Init(s0) && s0 == Scene(map[], None, map[])
    ensures exists s :: Reachable(s0, s) && OrphanListener(s, id, 0, p)
  {
    var l := Lease(p, 10);
    var s := ReachChecked(s0, id, l);
    ReachRevoked(s0, s, id, StOk(id, l));
    var s1 := s.(store := map[], pcs := map[1 := StOk(id, l), 2 := Tear(id, RevokeTask)]);
    ReachInstalled(s0, s1, id, l);
    var s2 :| Reachable(s0, s2) && s2.store == s1.store && LinkedAt(s2, id, 0) && 0 in s2.fwds && s2.fwds[0] == Forward(p, true);
    assert OrphanListener(s2, id, 0, p);
  }

  /** The pending teardown is needed: when the lease is revoked and created again on another port
      between StartForward's store read and its install, the listener goes up on a port that is
      not the lease's any more. */
  lemma StaleListenerIsReachable(s0: State, id: Id, p: int, q: int)
    requires Init(s0) && s0 == Scene(map[], None, map[]) && p != q
    ensures exists s :: Reachable(s0, s) && StaleListener(s, id, 0, p, q)
  {
    var l := Lease(p, 10);
    var s := ReachChecked(s0, id, l);
    ReachRevoked(s0, s, id, StOk(id, l));
    var s1 := s.(store := map[], pcs := map[1 := StOk(id, l), 2 := Tear(id, RevokeTask)]);
    var s2 := s1.(store := map[id := Lease(q, 10)]);
    ReachStep(s0, s1, OnStore(Create(id, q, 10)), s2);
    ReachInstalled(s0, s2, id, l);
    var s3 :| Reachable(s0, s3) && s3.store == s2.store && LinkedAt(s3, id, 0) && 0 in s3.fwds && s3.fwds[0] == Forward(p, true);
    assert StaleListener(s3, id, 0, p, q);
  }

  // ---------------------------------------------------------------- listeners

  /** No listener leaks and none is closed twice: in every reachable state a listener is
      open exactly when it is the forward of one linked leaseState or in the hands of one
      thread, never both, never two of either. */
  lemma ListenerHasOneOwner(s0: State, tr: seq<Step>, f: Fid)
    requires Init(s0) && Feasible(s0, tr)
    ensures
      var s := Exec(s0, tr);
      && (f in s.fwds && s.fwds[f].open <==> (exists id :: LinkedAt(s, id, f)) || (exists t :: Owns(s, t, f)))
      && (forall i, j :: LinkedAt(s, i, f) && LinkedAt(s, j, f) ==> i == j)
      && (forall t, u :: Owns(s, t, f) && Owns(s, u, f) ==> t == u)
      && (forall i, t :: LinkedAt(s, i, f) ==> !Owns(s, t, f))
  {
    RunKeepsInv(s0, tr);
    RunKeepsOpen(s0, tr);
    AccountedOnce(Exec(s0, tr), f);
    assert Accounted(Exec(s0, tr), f) <==>
      (exists id :: LinkedAt(Exec(s0, tr), id, f)) || (exists t :: Owns(Exec(s0, tr), t, f));
  }

  ghost predicate SameUnlinked(s: State, s': State, sid: Sid) {
    sid in s.states && sid in s'.states && s'.states[sid] == s.states[sid] && Unlinked(s', sid)
  }

  lemma FrozenInstall(s: State, t: Tid, r: RegisterEvent, sid: Sid)
    requires EnabledRegister(s, t, r) && sid in s.states && Unlinked(s, sid)
    ensures SameUnlinked(s, ApplyRegister(s, t, r), sid)
  {
  }

  lemma FrozenStart(s: State, t: Tid, f: StartEvent, sid: Sid)
    requires EnabledStart(s, t, f) && sid in s.states && Unlinked(s, sid)
    ensures SameUnlinked(s, ApplyStart(s, t, f), sid)
  {
  }

  lemma FrozenSession(s: State, t: Tid, n: SessionEvent, sid: Sid)
    requires EnabledSession(s, t, n) && sid in s.states && Unlinked(s, sid)
    ensures SameUnlinked(s, ApplySession(s, t, n), sid)
  {
  }

  lemma FrozenCoordinator(s: State, t: Tid, d: CoordinatorEvent, sid: Sid)
    requires EnabledCoordinator(s, t, d) && sid in s.states && Unlinked(s, sid)
    ensures SameUnlinked(s, ApplyCoordinator(s, t, d), sid)
  {
  }

  lemma FrozenStep(s: State, a: Step, sid: Sid)
    requires Enabled(s, a) && sid in s.states && Unlinked(s, sid)
    ensures SameUnlinked(s, Apply(s, a), sid)
  {
    match a
    case OnStore(e) =>
    case OnRegister(t, r) => FrozenInstall(s, t, r, sid);
    case OnStart(t, f) => FrozenStart(s, t, f, sid);
    case OnSession(t, n) => FrozenSession(s, t, n, sid);
    case OnClose(t, c) =>
    case OnCoordinator(t, d) => FrozenCoordinator(s, t, d, sid);
  }

  /** Once a leaseState is out of the table its connection and forward never change again, so
      RegisterConn, Teardown and OnConnClosed may read its forward after releasing mu. */
  lemma {:induction false} UnlinkedStateIsFrozen(s0: State, tr: seq<Step>, i: nat, k: nat, sid: Sid)
    requires Init(s0) && Feasible(s0, tr) && i <= k <= |tr|
    requires sid in StateAt(s0, tr, i).states && Unlinked(StateAt(s0, tr, i), sid)
    ensures SameUnlinked(StateAt(s0, tr, i), StateAt(s0, tr, k), sid)
  {
    if i < k {
      UnlinkedStateIsFrozen(s0, tr, i, k - 1, sid);
      StateAtStep(s0, tr, k - 1);
      FrozenStep(StateAt(s0, tr, k - 1), tr[k - 1], sid);
    }
  }

  // ---------------------------------------------------------------- last writer wins

  ghost predicate Registers(a: Step, id: Id, c: Tid) {
    a.OnRegister? && a.t == c && a.r.RegInstall? && a.r.id == id
  }

  /** The step takes the registration of c for `id` out of the table: a takeover, a
      Teardown of that id, or c's own close. */
  ghost predicate Ends(a: Step, id: Id, c: Tid) {
    || (a.OnRegister? && a.r.RegInstall? && a.r.id == id)
    || (a.OnCoordinator? && a.d == TearCut(id))
    || a == OnSession(c, ConnClosed(id))
  }

  /** Step i of the run is c's registration for `id` and nothing since then has ended it. */
  ghost predicate LatestRegistration(tr: seq<Step>, id: Id, c: Tid, i: nat) {
    i < |tr| && Registers(tr[i], id, c) && forall j :: i < j < |tr| ==> !Ends(tr[j], id, c)
  }

  lemma RegistrationStart(s: State, t: Tid, f: StartEvent, id: Id, c: Tid)
    requires PointerInv(s) && EnabledStart(s, t, f)
    ensures Registered(ApplyStart(s, t, f), id, c) <==> Registered(s, id, c)
  {
  }

  lemma RegistrationSession(s: State, t: Tid, n: SessionEvent, id: Id, c: Tid)
    requires PointerInv(s) && EnabledSession(s, t, n)
    ensures Registered(ApplySession(s, t, n), id, c) <==> Registered(s, id, c) && !(t == c && n == ConnClosed(id))
  {
  }

  lemma RegistrationRegister(s: State, t: Tid, r: RegisterEvent, id: Id, c: Tid)
    requires PointerInv(s) && EnabledRegister(s, t, r)
    ensures Registered(ApplyRegister(s, t, r), id, c) <==>
      if r.RegInstall? && r.id == id then t == c else Registered(s, id, c)
  {
  }

  lemma RegistrationCoordinator(s: State, t: Tid, d: CoordinatorEvent, id: Id, c: Tid)
    requires PointerInv(s) && EnabledCoordinator(s, t, d)
    ensures Registered(ApplyCoordinator(s, t, d), id, c) <==> Registered(s, id, c) && d != TearCut(id)
  {
  }

  lemma RegistrationStep(s: State, a: Step, id: Id, c: Tid)
    requires PointerInv(s) && Enabled(s, a)
    ensures Registered(Apply(s, a), id, c) <==> Registers(a, id, c) || (Registered(s, id, c) && !Ends(a, id, c))
  {
    match a
    case OnStore(e) =>
    case OnRegister(t, r) => RegistrationRegister(s, t, r, id, c);
    case OnStart(t, f) => RegistrationStart(s, t, f, id, c);
    case OnSession(t, n) => RegistrationSession(s, t, n, id, c);
    case OnClose(t, ce) =>
    case OnCoordinator(t, d) => RegistrationCoordinator(s, t, d, id, c);
  }

  lemma LatestStep(tr: seq<Step>, id: Id, c: Tid)
    requires tr != []
    ensures
      var n := |tr| - 1;
      (exists i :: LatestRegistration(tr, id, c, i)) <==>
      Registers(tr[n], id, c) || ((exists i :: LatestRegistration(tr[..n], id, c, i)) && !Ends(tr[n], id, c))
  {
    var n := |tr| - 1;
    if i: nat :| LatestRegistration(tr[..n], id, c, i) {
      assert !Ends(tr[n], id, c) ==> LatestRegistration(tr, id, c, i);
    }
    if i: nat :| LatestRegistration(tr, id, c, i) {
      assert i < n ==> LatestRegistration(tr[..n], id, c, i);
    }
    assert Registers(tr[n], id, c) ==> LatestRegistration(tr, id, c, n);
  }

  /** The connection the manager tracks for a lease is exactly the latest one that registered
      and was neither taken over, torn down nor closed by its own goroutine since. */
  lemma {:induction false} LastWriterWins(s0: State, tr: seq<Step>, id: Id, c: Tid)
    requires Init(s0) && Feasible(s0, tr)
    ensures Registered(Exec(s0, tr), id, c) <==> exists i :: LatestRegistration(tr, id, c, i)
  {
    if tr != [] {
      var n := |tr| - 1;
      LastWriterWins(s0, tr[..n], id, c);
      RunKeepsInv(s0, tr[..n]);
      RegistrationStep(Exec(s0, tr[..n]), tr[n], id, c);
      LatestStep(tr, id, c);
    }
  }

  lemma RequestStep(s: State, t: Tid, n: SessionEvent)
    requires PointerInv(s) && EnabledSession(s, t, n) && (n.Cancel? || n.ConnClosed?)
    ensures !Registered(s, n.id, t) ==> SameManager(s, ApplySession(s, t, n))
    ensures ApplySession(s, t, n).closedConns == s.closedConns
    ensures n.ConnClosed? ==> (ApplySession(s, t, n).table == s.table <==> !Registered(s, n.id, t))
  {
  }

  /** In every run, a cancel or close from a connection whose registration is not the latest one
      of that id changes nothing in the manager and closes nothing; and a close changes the table
      exactly when the registration of its connection is the latest. */
  lemma StaleRequestIsIgnored(s0: State, tr: seq<Step>, k: nat, c: Tid, n: SessionEvent)
    requires Init(s0) && Feasible(s0, tr) && k < |tr| && tr[k] == OnSession(c, n) && (n.Cancel? || n.ConnClosed?)
    ensures
      var s, s' := StateAt(s0, tr, k), StateAt(s0, tr, k + 1);
      && ((exists i :: LatestRegistration(tr[..k], n.id, c, i)) || (SameManager(s, s') && s'.closedConns == s.closedConns))
      && (n.ConnClosed? ==> (s'.table != s.table <==> exists i :: LatestRegistration(tr[..k], n.id, c, i)))
  {
    StateAtStep(s0, tr, k);
    StateAtInv(s0, tr, k);
    FeasiblePrefix(s0, tr, k);
    LastWriterWins(s0, tr[..k], n.id, c);
    RequestStep(StateAt(s0, tr, k), c, n);
  }

  /** t serves an open connection for `id` and no thread is about to close it. */
  ghost predicate LiveSession(s: State, t: Tid, id: Id) {
    t in s.pcs && SessionOf(s.pcs[t]) == Some(id) && t !in s.closedConns && !exists y :: WillHangUp(s, y, t)
  }

  /** A lease never has two open registered connections that nobody is about to close, and
      the one it may have is the one the manager can tear down. */
  lemma OneLiveSession(s0: State, tr: seq<Step>, id: Id, t: Tid, u: Tid)
    requires Init(s0) && Feasible(s0, tr)
    requires LiveSession(Exec(s0, tr), t, id) && LiveSession(Exec(s0, tr), u, id)
    ensures t == u && Registered(Exec(s0, tr), id, t)
  {
    RunKeepsInv(s0, tr);
    assert Tracked(Exec(s0, tr), t) && Tracked(Exec(s0, tr), u);
  }
}

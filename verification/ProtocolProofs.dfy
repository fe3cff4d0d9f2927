/** Every step of `Protocol` keeps its invariant. Steps that only move a thread
    between states in which it holds nothing are handled once per conjunct; the
    eight steps that change the table, a leaseState or a forward one by one. */
module ProtocolProofs {
  import opened Wrappers
  import opened Protocol

  // ---------------------------------------------------------------- frames

  /** The thread holds something outside the table: an unlinked leaseState or a detached forward. */
  predicate Holding(pc: PC) {
    pc.Closing? || HoldsForward(pc)
  }

  /** The thread still has to close or install a forward. */
  predicate Owing(pc: PC) {
    HoldsForward(pc) || (pc.Closing? && !pc.fwdDone)
  }

  ghost predicate SameManager(s: State, s': State) {
    s'.table == s.table && s'.states == s.states && s'.fwds == s.fwds
  }

  ghost predicate MovesOnly(s: State, s': State, t: Tid) {
    t in s'.pcs && s'.pcs == s.pcs[t := s'.pcs[t]]
  }

  ghost predicate Local(s: State, s': State, t: Tid) {
    SameManager(s, s') && MovesOnly(s, s', t) && !Holding(s'.pcs[t]) && (t in s.pcs ==> !Owing(s.pcs[t]))
  }

  lemma RegisterFrame(s: State, t: Tid, r: RegisterEvent)
    requires EnabledRegister(s, t, r)
    ensures MovesOnly(s, ApplyRegister(s, t, r), t) && ApplyRegister(s, t, r).store == s.store
    ensures !r.RegInstall? ==> Local(s, ApplyRegister(s, t, r), t)
  {
  }

  lemma StartFrame(s: State, t: Tid, f: StartEvent)
    requires EnabledStart(s, t, f)
    ensures MovesOnly(s, ApplyStart(s, t, f), t) && ApplyStart(s, t, f).store == s.store
    ensures !f.StListen? && !f.StInstall? ==> Local(s, ApplyStart(s, t, f), t)
  {
  }

  lemma SessionFrame(s: State, t: Tid, n: SessionEvent)
    requires EnabledSession(s, t, n)
    ensures MovesOnly(s, ApplySession(s, t, n), t) && ApplySession(s, t, n).store == s.store
    ensures !n.Cancel? && !n.CancelClose? && !n.ConnClosed? ==> Local(s, ApplySession(s, t, n), t)
  {
  }

  lemma CloseFrame(s: State, t: Tid, c: CloseEvent)
    requires EnabledClose(s, t, c)
    ensures MovesOnly(s, ApplyClose(s, t, c), t) && ApplyClose(s, t, c).store == s.store
    ensures !c.CloseFwd? ==> Local(s, ApplyClose(s, t, c), t)
  {
  }

  lemma CoordinatorFrame(s: State, t: Tid, d: CoordinatorEvent)
    requires EnabledCoordinator(s, t, d)
    ensures MovesOnly(s, ApplyCoordinator(s, t, d), t)
    ensures !d.TearCut? ==> Local(s, ApplyCoordinator(s, t, d), t)
  {
  }

  // ---------------------------------------------------------------- lock

  lemma LockRegister(s: State, t: Tid, r: RegisterEvent)
    requires LockInv(s) && EnabledRegister(s, t, r)
    ensures LockInv(ApplyRegister(s, t, r))
  {
  }

  lemma LockStart(s: State, t: Tid, f: StartEvent)
    requires LockInv(s) && EnabledStart(s, t, f)
    ensures LockInv(ApplyStart(s, t, f))
  {
  }

  lemma LockSession(s: State, t: Tid, n: SessionEvent)
    requires LockInv(s) && EnabledSession(s, t, n)
    ensures LockInv(ApplySession(s, t, n))
  {
  }

  lemma LockClose(s: State, t: Tid, c: CloseEvent)
    requires LockInv(s) && EnabledClose(s, t, c)
    ensures LockInv(ApplyClose(s, t, c))
  {
  }

  lemma LockCoordinator(s: State, t: Tid, d: CoordinatorEvent)
    requires LockInv(s) && EnabledCoordinator(s, t, d)
    ensures LockInv(ApplyCoordinator(s, t, d))
  {
  }

  // ---------------------------------------------------------------- who holds what

  ghost predicate Shape(s: State) {
    LockInv(s) && PointerInv(s) && HoldingInv(s)
  }

  lemma HoldingLocal(s: State, s': State, t: Tid)
    requires Shape(s) && Local(s, s', t)
    ensures PointerInv(s') && HoldingInv(s')
  {
    forall u | u in s'.pcs ensures ThreadHolds(s', u) {
      assert u != t ==> ThreadHolds(s, u);
    }
  }

  /** Two distinct threads that held different things, plus what t now holds. */
  lemma ApartKept(s: State, s': State, t: Tid)
    requires HoldingInv(s) && MovesOnly(s, s', t)
    requires forall u :: u in s.pcs && u != t ==> Apart(s'.pcs[t], s.pcs[u])
    ensures forall u, v :: u in s'.pcs && v in s'.pcs && u != v ==> Apart(s'.pcs[u], s'.pcs[v])
  {
  }

  lemma ShapeRegInstall(s: State, t: Tid, id: Id, sid: Sid)
    requires Shape(s) && EnabledRegister(s, t, RegInstall(id, sid))
    ensures
      var s' := ApplyRegister(s, t, RegInstall(id, sid));
      PointerInv(s') && HoldingInv(s')
  {
    var s' := ApplyRegister(s, t, RegInstall(id, sid));
    forall u | u in s'.pcs ensures ThreadHolds(s', u) {
      assert u != t ==> ThreadHolds(s, u);
    }
    forall u | u in s.pcs && u != t ensures Apart(s'.pcs[t], s.pcs[u]) {
      assert ThreadHolds(s, u);
    }
    ApartKept(s, s', t);
  }

  lemma ShapeStListen(s: State, t: Tid, f: Fid)
    requires Shape(s) && EnabledStart(s, t, StListen(f))
    ensures
      var s' := ApplyStart(s, t, StListen(f));
      PointerInv(s') && HoldingInv(s')
  {
    var s' := ApplyStart(s, t, StListen(f));
    forall u | u in s'.pcs ensures ThreadHolds(s', u) {
      assert u != t ==> ThreadHolds(s, u);
    }
    forall u | u in s.pcs && u != t ensures Apart(s'.pcs[t], s.pcs[u]) {
      assert ThreadHolds(s, u);
    }
    ApartKept(s, s', t);
  }

  lemma ShapeStInstall(s: State, t: Tid)
    requires Shape(s) && EnabledStart(s, t, StInstall)
    ensures
      var s' := ApplyStart(s, t, StInstall);
      PointerInv(s') && HoldingInv(s')
  {
    var s' := ApplyStart(s, t, StInstall);
    assert ThreadHolds(s, t);
    forall u | u in s'.pcs ensures ThreadHolds(s', u) {
      assert u != t ==> ThreadHolds(s, u) && Apart(s.pcs[t], s.pcs[u]);
    }
    ApartKept(s, s', t);
  }

  lemma ShapeCancel(s: State, t: Tid, id: Id)
    requires Shape(s) && EnabledSession(s, t, Cancel(id))
    ensures
      var s' := ApplySession(s, t, Cancel(id));
      PointerInv(s') && HoldingInv(s')
  {
    var s' := ApplySession(s, t, Cancel(id));
    forall u | u in s'.pcs ensures ThreadHolds(s', u) {
      assert u != t ==> ThreadHolds(s, u);
    }
    forall u | u in s.pcs && u != t ensures Apart(s'.pcs[t], s.pcs[u]) {
      assert ThreadHolds(s, u);
    }
    ApartKept(s, s', t);
  }

  lemma ShapeShut(s: State, s': State, t: Tid)
    requires Shape(s) && MovesOnly(s, s', t) && s'.table == s.table && s'.states == s.states
    requires s'.fwds.Keys == s.fwds.Keys
    requires Holding(s'.pcs[t]) ==> s'.pcs[t].Closing? && t in s.pcs && s.pcs[t].Closing? && s.pcs[t].sid == s'.pcs[t].sid
    ensures PointerInv(s') && HoldingInv(s')
  {
    forall u | u in s'.pcs ensures ThreadHolds(s', u) {
      assert u in s.pcs ==> ThreadHolds(s, u);
    }
    forall u | u in s.pcs && u != t ensures Apart(s'.pcs[t], s.pcs[u]) {
      assert t in s.pcs ==> Apart(s.pcs[t], s.pcs[u]);
    }
    ApartKept(s, s', t);
  }

  /** Unlinking `id` hands its leaseState to the thread that did it (OnConnClosed, Teardown). */
  lemma ShapeUnlink(s: State, s': State, t: Tid, id: Id)
    requires Shape(s) && MovesOnly(s, s', t) && s.mu.None? && id in s.table
    requires s'.table == s.table - {id} && s'.states == s.states && s'.fwds == s.fwds
    requires s'.pcs[t].Closing? && s'.pcs[t].sid == s.table[id]
    ensures PointerInv(s') && HoldingInv(s')
  {
    forall u | u in s'.pcs ensures ThreadHolds(s', u) {
      assert u != t ==> ThreadHolds(s, u);
    }
    forall u | u in s.pcs && u != t ensures Apart(s'.pcs[t], s.pcs[u]) {
      assert ThreadHolds(s, u);
    }
    ApartKept(s, s', t);
  }

  // ---------------------------------------------------------------- no forward is lost

  lemma ForwardsLocal(s: State, s': State, t: Tid)
    requires ForwardInv(s) && Local(s, s', t)
    ensures ForwardInv(s')
  {
    forall f | f in s'.fwds && s'.fwds[f].open ensures Accounted(s', f) {
      assert Accounted(s, f);
      if id :| LinkedAt(s, id, f) {
        assert LinkedAt(s', id, f);
      } else {
        var u :| Owns(s, u, f);
        assert Owns(s', u, f);
      }
    }
  }

  lemma ForwardsRegInstall(s: State, t: Tid, id: Id, sid: Sid)
    requires Shape(s) && ForwardInv(s) && EnabledRegister(s, t, RegInstall(id, sid))
    ensures ForwardInv(ApplyRegister(s, t, RegInstall(id, sid)))
  {
    var s' := ApplyRegister(s, t, RegInstall(id, sid));
    forall f | f in s'.fwds && s'.fwds[f].open ensures Accounted(s', f) {
      assert Accounted(s, f);
      if i :| LinkedAt(s, i, f) {
        assert if i == id then Owns(s', t, f) else LinkedAt(s', i, f);
      } else {
        var u :| Owns(s, u, f);
        assert Owns(s', u, f);
      }
    }
  }

  lemma ForwardsStListen(s: State, t: Tid, g: Fid)
    requires Shape(s) && ForwardInv(s) && EnabledStart(s, t, StListen(g))
    ensures ForwardInv(ApplyStart(s, t, StListen(g)))
  {
    var s' := ApplyStart(s, t, StListen(g));
    assert Owns(s', t, g);
    forall f | f in s'.fwds && s'.fwds[f].open && f != g ensures Accounted(s', f) {
      assert Accounted(s, f);
      if i :| LinkedAt(s, i, f) {
        assert LinkedAt(s', i, f);
      } else {
        var u :| Owns(s, u, f);
        assert Owns(s', u, f);
      }
    }
  }

  lemma ForwardsStInstall(s: State, t: Tid)
    requires Shape(s) && ForwardInv(s) && EnabledStart(s, t, StInstall)
    ensures ForwardInv(ApplyStart(s, t, StInstall))
  {
    var s' := ApplyStart(s, t, StInstall);
    var id := s.pcs[t].id;
    assert ThreadHolds(s, t);
    assert LinkedAt(s', id, s.pcs[t].f);
    forall f | f in s'.fwds && s'.fwds[f].open && f != s.pcs[t].f ensures Accounted(s', f) {
      assert Accounted(s, f);
      if i :| LinkedAt(s, i, f) {
        assert LinkedAt(s', i, f);
      } else {
        var u :| Owns(s, u, f);
        assert ThreadHolds(s, u);
        assert Owns(s', u, f);
      }
    }
  }

  lemma ForwardsCancel(s: State, t: Tid, id: Id)
    requires Shape(s) && ForwardInv(s) && EnabledSession(s, t, Cancel(id))
    ensures ForwardInv(ApplySession(s, t, Cancel(id)))
  {
    var s' := ApplySession(s, t, Cancel(id));
    forall f | f in s'.fwds && s'.fwds[f].open ensures Accounted(s', f) {
      assert Accounted(s, f);
      if i :| LinkedAt(s, i, f) {
        assert LinkedAt(s', i, f) || Owns(s', t, f);
      } else {
        var u :| Owns(s, u, f);
        assert ThreadHolds(s, u);
        assert Owns(s', u, f);
      }
    }
  }

  /** Closing the one forward a thread owns leaves every other forward accounted for. */
  lemma ForwardsShut(s: State, s': State, t: Tid, shut: set<Fid>)
    requires ForwardInv(s) && MovesOnly(s, s', t) && s'.table == s.table && s'.states == s.states
    requires forall f :: f in s'.fwds && s'.fwds[f].open ==> f in s.fwds && s.fwds[f].open && f !in shut
    requires forall f :: Owns(s, t, f) ==> f in shut
    ensures ForwardInv(s')
  {
    forall f | f in s'.fwds && s'.fwds[f].open ensures Accounted(s', f) {
      assert Accounted(s, f);
      if i :| LinkedAt(s, i, f) {
        assert LinkedAt(s', i, f);
      } else {
        var u :| Owns(s, u, f);
        assert Owns(s', u, f);
      }
    }
  }

  lemma ForwardsUnlink(s: State, s': State, t: Tid, id: Id)
    requires Shape(s) && ForwardInv(s) && MovesOnly(s, s', t) && id in s.table
    requires t in s.pcs && !Owing(s.pcs[t])
    requires s'.table == s.table - {id} && s'.states == s.states && s'.fwds == s.fwds
    requires s'.pcs[t].Closing? && !s'.pcs[t].fwdDone && s'.pcs[t].sid == s.table[id]
    ensures ForwardInv(s')
  {
    forall f | f in s'.fwds && s'.fwds[f].open ensures Accounted(s', f) {
      assert Accounted(s, f);
      if i :| LinkedAt(s, i, f) {
        assert if i == id then Owns(s', t, f) else LinkedAt(s', i, f);
      } else {
        var u :| Owns(s, u, f);
        assert Owns(s', u, f);
      }
    }
  }

  // ---------------------------------------------------------------- table against store

  /** A thread that is not itself a pending teardown can move without weakening any backing. */
  lemma BackingKept(s: State, s': State, t: Tid)
    requires MovesOnly(s, s', t) && s'.store == s.store && (t in s.pcs ==> !s.pcs[t].Tear?)
    ensures forall id :: LiveOrPending(s, id) ==> LiveOrPending(s', id)
    ensures forall id, p :: PortOrPending(s, id, p) ==> PortOrPending(s', id, p)
    ensures forall u, c, id :: Renewed(s, u, c, id) ==> Renewed(s', u, c, id)
  {
    assert forall u, id :: PendingBy(s, u, id) ==> PendingBy(s', u, id);
  }

  /** Removing a lease replaces its backing by the remover's pending teardown. */
  lemma BackingRemoved(s: State, s': State, t: Tid, id: Id)
    requires MovesOnly(s, s', t) && (s'.store == s.store - {id} || s'.store == s.store)
    requires t in s.pcs ==> !s.pcs[t].Tear?
    requires s'.pcs[t].Tear? && s'.pcs[t].id == id
    ensures forall i :: LiveOrPending(s, i) ==> LiveOrPending(s', i)
    ensures forall i, p :: PortOrPending(s, i, p) ==> PortOrPending(s', i, p)
    ensures forall u, c, i :: (u != t || i != id) && Renewed(s, u, c, i) ==> Renewed(s', u, c, i)
  {
    assert PendingBy(s', t, id);
    assert forall u, i :: PendingBy(s, u, i) ==> PendingBy(s', u, i);
  }

  /** After Teardown's critical section only that id's backing may be weaker. */
  lemma BackingTorn(s: State, s': State, t: Tid, id: Id)
    requires MovesOnly(s, s', t) && s'.store == s.store && PendingBy(s, t, id)
    ensures forall i :: i != id && LiveOrPending(s, i) ==> LiveOrPending(s', i)
    ensures forall i, p :: i != id && PortOrPending(s, i, p) ==> PortOrPending(s', i, p)
    ensures forall u, c, i :: i != id && Renewed(s, u, c, i) ==> Renewed(s', u, c, i)
  {
    assert forall u, i :: i != id && PendingBy(s, u, i) ==> PendingBy(s', u, i);
  }

  /** Create and Extend only strengthen backing. */
  lemma BackingStored(s: State, e: StoreEvent)
    requires EnabledStore(s, e)
    ensures
      var s' := ApplyStore(s, e);
      && (forall id :: LiveOrPending(s, id) ==> LiveOrPending(s', id))
      && (forall id, p :: PortOrPending(s, id, p) ==> PortOrPending(s', id, p))
      && (forall u, c, id :: Renewed(s, u, c, id) ==> Renewed(s', u, c, id))
  {
    var s' := ApplyStore(s, e);
    assert forall u, id :: PendingBy(s, u, id) ==> PendingBy(s', u, id);
  }

  lemma BackedStore(s: State, e: StoreEvent)
    requires StoreInv(s) && EnabledStore(s, e)
    ensures StoreInv(ApplyStore(s, e))
  {
    var s' := ApplyStore(s, e);
    BackingStored(s, e);
    forall id | id in s'.table ensures EntryBacked(s', id) {
      assert EntryBacked(s, id);
      assert forall f :: LinkedAt(s', id, f) ==> LinkedAt(s, id, f);
    }
    forall t | t in s'.pcs ensures ReaderBacked(s', t) {
      assert ReaderBacked(s, t);
    }
  }

  /** The common part: no other thread's reading and no existing entry loses its backing. */
  lemma BackedLocal(s: State, s': State, t: Tid)
    requires StoreInv(s) && MovesOnly(s, s', t) && SameManager(s, s') && DistinctPorts(s'.store)
    requires forall id :: LiveOrPending(s, id) ==> LiveOrPending(s', id)
    requires forall id, p :: PortOrPending(s, id, p) ==> PortOrPending(s', id, p)
    requires ReaderBacked(s', t)
    ensures StoreInv(s')
  {
    forall id | id in s'.table ensures EntryBacked(s', id) {
      assert EntryBacked(s, id);
      assert forall f :: LinkedAt(s', id, f) ==> LinkedAt(s, id, f);
    }
    forall u | u in s'.pcs ensures ReaderBacked(s', u) {
      assert u != t ==> ReaderBacked(s, u);
    }
  }

  lemma BackedInstall(s: State, t: Tid, id: Id, sid: Sid)
    requires Shape(s) && StoreInv(s) && EnabledRegister(s, t, RegInstall(id, sid))
    ensures StoreInv(ApplyRegister(s, t, RegInstall(id, sid)))
  {
    var s' := ApplyRegister(s, t, RegInstall(id, sid));
    RegisterFrame(s, t, RegInstall(id, sid));
    BackingKept(s, s', t);
    assert ReaderBacked(s, t);
    forall i | i in s'.table ensures EntryBacked(s', i) {
      assert i != id ==> EntryBacked(s, i);
      assert i != id ==> forall f :: LinkedAt(s', i, f) ==> LinkedAt(s, i, f);
    }
    forall u | u in s'.pcs ensures ReaderBacked(s', u) {
      assert u != t ==> ReaderBacked(s, u);
    }
  }

  lemma BackedRegister(s: State, t: Tid, r: RegisterEvent)
    requires Shape(s) && StoreInv(s) && EnabledRegister(s, t, r)
    ensures StoreInv(ApplyRegister(s, t, r))
  {
    if r.RegInstall? {
      BackedInstall(s, t, r.id, r.sid);
    } else {
      var s' := ApplyRegister(s, t, r);
      RegisterFrame(s, t, r);
      BackingKept(s, s', t);
      assert t in s.pcs ==> ReaderBacked(s, t);
      BackedLocal(s, s', t);
    }
  }

  lemma BackedBind(s: State, t: Tid, f: StartEvent)
    requires Shape(s) && StoreInv(s) && EnabledStart(s, t, f) && (f.StListen? || f.StInstall?)
    ensures StoreInv(ApplyStart(s, t, f))
  {
    var s' := ApplyStart(s, t, f);
    BackingKept(s, s', t);
    assert ReaderBacked(s, t) && ThreadHolds(s, t);
    forall id | id in s'.table ensures EntryBacked(s', id) {
      assert EntryBacked(s, id);
    }
    forall u | u in s'.pcs ensures ReaderBacked(s', u) {
      assert u != t ==> ReaderBacked(s, u) && ThreadHolds(s, u);
    }
  }

  lemma BackedStart(s: State, t: Tid, f: StartEvent)
    requires Shape(s) && StoreInv(s) && EnabledStart(s, t, f)
    ensures StoreInv(ApplyStart(s, t, f))
  {
    if f.StListen? || f.StInstall? {
      BackedBind(s, t, f);
    } else {
      StartFrame(s, t, f);
      BackingKept(s, ApplyStart(s, t, f), t);
      assert ReaderBacked(s, t);
      BackedLocal(s, ApplyStart(s, t, f), t);
    }
  }

  /** Steps that leave the store alone, install nothing and read nothing. */
  lemma BackedAway(s: State, s': State, t: Tid)
    requires StoreInv(s) && MovesOnly(s, s', t) && s'.store == s.store && (t in s.pcs ==> !s.pcs[t].Tear?)
    requires !HoldsMu(s'.pcs[t]) && s'.table.Keys <= s.table.Keys && s.fwds.Keys <= s'.fwds.Keys
    requires forall id, f :: LinkedAt(s', id, f) ==> LinkedAt(s, id, f)
    requires forall f :: f in s.fwds ==> s'.fwds[f].port == s.fwds[f].port
    requires forall id, f :: LinkedAt(s', id, f) ==> f in s.fwds
    requires forall u :: u in s.pcs && u != t && s.pcs[u].StBound? ==> s.pcs[u].f in s.fwds
    ensures StoreInv(s')
  {
    BackingKept(s, s', t);
    forall id | id in s'.table ensures EntryBacked(s', id) {
      assert EntryBacked(s, id);
    }
    forall u | u in s'.pcs ensures ReaderBacked(s', u) {
      assert u != t ==> ReaderBacked(s, u);
    }
  }

  lemma BackedCancel(s: State, t: Tid, id: Id)
    requires Shape(s) && StoreInv(s) && EnabledSession(s, t, Cancel(id))
    ensures StoreInv(ApplySession(s, t, Cancel(id)))
  {
    SessionFrame(s, t, Cancel(id));
    assert forall u :: u in s.pcs ==> ThreadHolds(s, u);
    BackedAway(s, ApplySession(s, t, Cancel(id)), t);
  }

  lemma BackedConnClosed(s: State, t: Tid, id: Id)
    requires Shape(s) && StoreInv(s) && EnabledSession(s, t, ConnClosed(id))
    ensures StoreInv(ApplySession(s, t, ConnClosed(id)))
  {
    SessionFrame(s, t, ConnClosed(id));
    assert forall u :: u in s.pcs ==> ThreadHolds(s, u);
    BackedAway(s, ApplySession(s, t, ConnClosed(id)), t);
  }

  lemma BackedCancelClose(s: State, t: Tid)
    requires Shape(s) && StoreInv(s) && EnabledSession(s, t, CancelClose)
    ensures StoreInv(ApplySession(s, t, CancelClose))
  {
    SessionFrame(s, t, CancelClose);
    assert forall u :: u in s.pcs ==> ThreadHolds(s, u);
    BackedAway(s, ApplySession(s, t, CancelClose), t);
  }

  lemma BackedSession(s: State, t: Tid, n: SessionEvent)
    requires Shape(s) && StoreInv(s) && EnabledSession(s, t, n)
    ensures StoreInv(ApplySession(s, t, n))
  {
    match n
    case Cancel(id) => BackedCancel(s, t, id);
    case ConnClosed(id) => BackedConnClosed(s, t, id);
    case CancelClose => BackedCancelClose(s, t);
    case _ =>
      SessionFrame(s, t, n);
      BackingKept(s, ApplySession(s, t, n), t);
      BackedLocal(s, ApplySession(s, t, n), t);
  }

  lemma BackedClose(s: State, t: Tid, c: CloseEvent)
    requires Shape(s) && StoreInv(s) && EnabledClose(s, t, c)
    ensures StoreInv(ApplyClose(s, t, c))
  {
    CloseFrame(s, t, c);
    assert forall u :: u in s.pcs ==> ThreadHolds(s, u);
    BackedAway(s, ApplyClose(s, t, c), t);
  }

  lemma TearFrame(s: State, t: Tid, id: Id)
    requires EnabledCoordinator(s, t, TearCut(id))
    ensures
      var s' := ApplyCoordinator(s, t, TearCut(id));
      && MovesOnly(s, s', t) && !HoldsMu(s'.pcs[t]) && s'.store == s.store
      && s'.states == s.states && s'.fwds == s.fwds && s'.table == s.table - {id}
  {
  }

  lemma EntriesBackedWithout(s: State, s': State, id: Id)
    requires StoreInv(s) && s'.states == s.states && s'.fwds == s.fwds && s'.table == s.table - {id}
    requires forall i :: i != id && LiveOrPending(s, i) ==> LiveOrPending(s', i)
    requires forall i, p :: i != id && PortOrPending(s, i, p) ==> PortOrPending(s', i, p)
    ensures forall i :: i in s'.table ==> EntryBacked(s', i)
  {
    forall i | i in s'.table ensures EntryBacked(s', i) {
      assert EntryBacked(s, i);
      assert forall f :: LinkedAt(s', i, f) ==> LinkedAt(s, i, f);
    }
  }

  lemma NoReaders(s: State)
    requires forall u :: u in s.pcs ==> !HoldsMu(s.pcs[u])
    ensures forall u :: u in s.pcs ==> ReaderBacked(s, u)
  {
    forall u | u in s.pcs ensures ReaderBacked(s, u) {
      assert !HoldsMu(s.pcs[u]);
    }
  }

  lemma BackedTear(s: State, t: Tid, id: Id)
    requires Shape(s) && StoreInv(s) && EnabledCoordinator(s, t, TearCut(id))
    ensures StoreInv(ApplyCoordinator(s, t, TearCut(id)))
  {
    var s' := ApplyCoordinator(s, t, TearCut(id));
    TearFrame(s, t, id);
    BackingTorn(s, s', t, id);
    EntriesBackedWithout(s, s', id);
    NoReaders(s');
  }

  lemma BackedCoordinator(s: State, t: Tid, d: CoordinatorEvent)
    requires Shape(s) && StoreInv(s) && EnabledCoordinator(s, t, d)
    ensures StoreInv(ApplyCoordinator(s, t, d))
  {
    var s' := ApplyCoordinator(s, t, d);
    CoordinatorFrame(s, t, d);
    if d.TearCut? {
      BackedTear(s, t, d.id);
    } else {
      if d.Revoke? || d.SweepMark? {
        BackingRemoved(s, s', t, d.id);
      } else {
        BackingKept(s, s', t);
      }
      BackedLocal(s, s', t);
    }
  }

  // ---------------------------------------------------------------- sweeps

  /** Nothing becomes present for a swept id except by reading a lease renewed past the cutoff. */
  ghost predicate NoNewcomers(s: State, s': State) {
    forall c, id :: c <= s.now && Present(s', c, id) ==>
      Present(s, c, id) || (id in s'.store && s'.store[id].expires > c)
  }

  lemma SweptFrame(s: State, s': State, t: Tid)
    requires SweepInv(s) && MovesOnly(s, s', t) && s'.now == s.now
    requires forall u, c, id :: u != t && Renewed(s, u, c, id) ==> Renewed(s', u, c, id)
    requires NoNewcomers(s, s')
    requires SweptBy(s', t)
    ensures SweepInv(s')
  {
    forall u | u in s'.pcs ensures SweptBy(s', u) {
      assert u != t ==> SweptBy(s, u);
    }
  }

  lemma NewcomersRegister(s: State, t: Tid, r: RegisterEvent)
    requires EnabledRegister(s, t, r)
    ensures NoNewcomers(s, ApplyRegister(s, t, r))
  {
    var s' := ApplyRegister(s, t, r);
    forall c, id | c <= s.now && Present(s', c, id)
      ensures Present(s, c, id) || (id in s'.store && s'.store[id].expires > c)
    {
      if id in s'.table {
        assert id !in s.table ==> At(s, t, RegOk(id));
      } else if u :| At(s', u, RegOk(id)) {
        assert u != t ==> At(s, u, RegOk(id));
      }
    }
  }

  lemma SweptRegister(s: State, t: Tid, r: RegisterEvent)
    requires SweepInv(s) && EnabledRegister(s, t, r)
    ensures SweepInv(ApplyRegister(s, t, r))
  {
    var s' := ApplyRegister(s, t, r);
    RegisterFrame(s, t, r);
    BackingKept(s, s', t);
    NewcomersRegister(s, t, r);
    SweptFrame(s, s', t);
  }

  /** Steps that leave registrations in progress alone and do not add to the table. */
  lemma NoNewcomersElsewhere(s: State, s': State, t: Tid)
    requires MovesOnly(s, s', t) && !s'.pcs[t].RegOk? && !s'.pcs[t].RegRead?
    requires s'.table.Keys <= s.table.Keys
    ensures NoNewcomers(s, s')
  {
    forall c, id | c <= s.now && Present(s', c, id) ensures Present(s, c, id) {
      if id !in s'.table {
        if u :| At(s', u, RegOk(id)) {
          assert At(s, u, RegOk(id));
        }
      }
    }
  }

  lemma SweptStart(s: State, t: Tid, f: StartEvent)
    requires SweepInv(s) && EnabledStart(s, t, f)
    ensures SweepInv(ApplyStart(s, t, f))
  {
    var s' := ApplyStart(s, t, f);
    StartFrame(s, t, f);
    BackingKept(s, s', t);
    NoNewcomersElsewhere(s, s', t);
    SweptFrame(s, s', t);
  }

  lemma SweptSession(s: State, t: Tid, n: SessionEvent)
    requires SweepInv(s) && EnabledSession(s, t, n)
    ensures SweepInv(ApplySession(s, t, n))
  {
    var s' := ApplySession(s, t, n);
    SessionFrame(s, t, n);
    BackingKept(s, s', t);
    NoNewcomersElsewhere(s, s', t);
    SweptFrame(s, s', t);
  }

  lemma SweptClose(s: State, t: Tid, c: CloseEvent)
    requires SweepInv(s) && EnabledClose(s, t, c)
    ensures SweepInv(ApplyClose(s, t, c))
  {
    var s' := ApplyClose(s, t, c);
    CloseFrame(s, t, c);
    BackingKept(s, s', t);
    NoNewcomersElsewhere(s, s', t);
    assert SweptBy(s, t);
    assert SweepOf(s'.pcs[t]) == SweepOf(s.pcs[t]);
    SweptFrame(s, s', t);
  }

  lemma SweptStore(s: State, e: StoreEvent)
    requires SweepInv(s) && EnabledStore(s, e)
    ensures SweepInv(ApplyStore(s, e))
  {
    var s' := ApplyStore(s, e);
    BackingStored(s, e);
    assert forall u, id :: At(s', u, RegOk(id)) ==> At(s, u, RegOk(id));
    forall u | u in s'.pcs ensures SweptBy(s', u) {
      assert SweptBy(s, u);
      assert forall c, id :: Present(s', c, id) ==> Present(s, c, id);
    }
  }

  /** Whatever is present for an id that is not live has somebody else's teardown pending. */
  lemma PresentIsBacked(s: State, c: int, id: Id, t: Tid)
    requires StoreInv(s) && t in s.pcs && !s.pcs[t].Tear?
    requires Present(s, c, id)
    ensures id in s.store || PendingByOther(s, t, id)
  {
    if id in s.table {
      assert EntryBacked(s, id);
    } else if u :| At(s, u, RegOk(id)) {
      assert ReaderBacked(s, u);
    } else {
      var u :| u in s.pcs && s.pcs[u].RegRead? && s.pcs[u].id == id && s.pcs[u].l.expires > c;
      assert ReaderBacked(s, u);
    }
    if id !in s.store {
      var u :| PendingBy(s, u, id);
      assert u != t;
    }
  }

  /** A snapshot leaves out only ids that are renewed past the cutoff, unknown, or pending elsewhere;
      skipping an id after its re-check leaves it in the same condition. */
  lemma SweptScan(s: State, t: Tid, d: CoordinatorEvent)
    requires StoreInv(s) && SweepInv(s) && EnabledCoordinator(s, t, d)
    requires d.SweepSnapshot? || d.SweepSkip? || d.SweepEnd?
    ensures SweptBy(ApplyCoordinator(s, t, d), t)
  {
    var s' := ApplyCoordinator(s, t, d);
    var c := s.pcs[t].cutoff;
    assert SweptBy(s, t);
    CoordinatorFrame(s, t, d);
    BackingKept(s, s', t);
    NoNewcomersElsewhere(s, s', t);
    forall id | id !in SweepOf(s'.pcs[t]).value.1 && Present(s', c, id) ensures Renewed(s', t, c, id) {
      if Present(s, c, id) {
        PresentIsBacked(s, c, id, t);
        assert Renewed(s, t, c, id);
      }
    }
  }

  lemma SweptMark(s: State, t: Tid, d: CoordinatorEvent)
    requires SweepInv(s) && EnabledCoordinator(s, t, d) && (d.Revoke? || d.SweepMark?)
    ensures SweepInv(ApplyCoordinator(s, t, d))
  {
    var s' := ApplyCoordinator(s, t, d);
    CoordinatorFrame(s, t, d);
    BackingRemoved(s, s', t, d.id);
    NoNewcomersElsewhere(s, s', t);
    if d.SweepMark? {
      assert SweptBy(s, t);
      assert s.pcs[t].todo - {d.id} + {d.id} == s.pcs[t].todo;
    }
    SweptFrame(s, s', t);
  }

  lemma SweptOthers(s: State, s': State, u: Tid, t: Tid, id: Id)
    requires u in s.pcs && u != t && SweptBy(s, u) && MovesOnly(s, s', t) && s'.now == s.now && NoNewcomers(s, s')
    requires forall c :: !Present(s', c, id)
    requires forall u, c, i :: i != id && Renewed(s, u, c, i) ==> Renewed(s', u, c, i)
    requires s'.store == s.store
    ensures SweptBy(s', u)
  {
  }

  /** The thread's own sweep has now dealt with `id` too, which is no longer present. */
  lemma SweptOwn(s: State, s': State, t: Tid, id: Id)
    requires t in s.pcs && t in s'.pcs && SweptBy(s, t) && s'.now == s.now && NoNewcomers(s, s')
    requires s.pcs[t].Tear? && s.pcs[t].id == id && !s'.pcs[t].SwBegin?
    requires SweepOf(s'.pcs[t]) == if s.pcs[t].task.SweepTask? then Some((s.pcs[t].task.cutoff, s.pcs[t].task.todo)) else None
    requires forall c :: !Present(s', c, id)
    requires forall u, c, i :: i != id && Renewed(s, u, c, i) ==> Renewed(s', u, c, i)
    requires s'.store == s.store
    ensures SweptBy(s', t)
  {
  }

  lemma SweptTear(s: State, t: Tid, id: Id)
    requires LockInv(s) && SweepInv(s) && EnabledCoordinator(s, t, TearCut(id))
    ensures SweepInv(ApplyCoordinator(s, t, TearCut(id)))
  {
    var s' := ApplyCoordinator(s, t, TearCut(id));
    TearFrame(s, t, id);
    BackingTorn(s, s', t, id);
    NoNewcomersElsewhere(s, s', t);
    assert forall u :: u in s'.pcs ==> !s'.pcs[u].RegOk? && !s'.pcs[u].RegRead?;
    assert forall c :: !Present(s', c, id);
    forall u | u in s'.pcs ensures SweptBy(s', u) {
      if u == t {
        assert SweptBy(s, t);
        SweptOwn(s, s', t, id);
      } else {
        assert SweptBy(s, u);
        SweptOthers(s, s', u, t, id);
      }
    }
  }

  lemma SweptCoordinator(s: State, t: Tid, d: CoordinatorEvent)
    requires LockInv(s) && StoreInv(s) && SweepInv(s) && EnabledCoordinator(s, t, d)
    ensures SweepInv(ApplyCoordinator(s, t, d))
  {
    var s' := ApplyCoordinator(s, t, d);
    if d.TearCut? {
      SweptTear(s, t, d.id);
    } else if d.Revoke? || d.SweepMark? {
      SweptMark(s, t, d);
    } else {
      CoordinatorFrame(s, t, d);
      BackingKept(s, s', t);
      NoNewcomersElsewhere(s, s', t);
      if !d.SweepStart? {
        SweptScan(s, t, d);
      }
      SweptFrame(s, s', t);
    }
  }

  // ---------------------------------------------------------------- sessions

  /** A registered thread other than t keeps its entry or a closer, unless its connection got closed. */
  lemma TrackedFrame(s: State, s': State, t: Tid)
    requires SessionInv(s) && MovesOnly(s, s', t) && s.closedConns <= s'.closedConns
    requires forall u, id :: u in s.pcs && u != t && Registered(s, id, u) ==>
               Registered(s', id, u) || WillHangUp(s', t, u)
    requires forall u, v :: v != t && WillHangUp(s, v, u) ==> WillHangUp(s', v, u)
    requires forall u :: WillHangUp(s, t, u) ==> WillHangUp(s', t, u) || u in s'.closedConns
    requires Tracked(s', t)
    ensures SessionInv(s')
  {
    forall u | u in s'.pcs ensures Tracked(s', u) {
      assert u != t ==> Tracked(s, u);
    }
  }

  /** Steps that keep every registration and every thread that is closing one. */
  lemma TrackedQuiet(s: State, s': State, t: Tid)
    requires SessionInv(s) && MovesOnly(s, s', t) && s'.closedConns == s.closedConns
    requires s'.table == s.table && s.states.Keys <= s'.states.Keys
    requires forall x :: x in s.states ==> s'.states[x].conn == s.states[x].conn
    requires t in s.pcs ==> !s.pcs[t].Closing?
    requires SessionOf(s'.pcs[t]).Some? ==> t in s.pcs && SessionOf(s.pcs[t]) == SessionOf(s'.pcs[t])
    ensures SessionInv(s')
  {
    assert t in s.pcs ==> Tracked(s, t);
    assert forall u, v :: WillHangUp(s, v, u) ==> WillHangUp(s', v, u);
    forall u | u in s'.pcs ensures Tracked(s', u) {
      assert u != t ==> Tracked(s, u);
    }
  }

  lemma TrackedInstall(s: State, t: Tid, id: Id, sid: Sid)
    requires Shape(s) && SessionInv(s) && EnabledRegister(s, t, RegInstall(id, sid))
    ensures SessionInv(ApplyRegister(s, t, RegInstall(id, sid)))
  {
    TrackedFrame(s, ApplyRegister(s, t, RegInstall(id, sid)), t);
  }

  lemma TrackedRegister(s: State, t: Tid, r: RegisterEvent)
    requires Shape(s) && SessionInv(s) && EnabledRegister(s, t, r)
    ensures SessionInv(ApplyRegister(s, t, r))
  {
    if r.RegInstall? {
      TrackedInstall(s, t, r.id, r.sid);
    } else {
      RegisterFrame(s, t, r);
      TrackedQuiet(s, ApplyRegister(s, t, r), t);
    }
  }

  lemma TrackedStart(s: State, t: Tid, f: StartEvent)
    requires Shape(s) && SessionInv(s) && EnabledStart(s, t, f)
    ensures SessionInv(ApplyStart(s, t, f))
  {
    StartFrame(s, t, f);
    TrackedQuiet(s, ApplyStart(s, t, f), t);
  }

  lemma TrackedCancel(s: State, t: Tid, id: Id)
    requires Shape(s) && SessionInv(s) && EnabledSession(s, t, Cancel(id))
    ensures SessionInv(ApplySession(s, t, Cancel(id)))
  {
    SessionFrame(s, t, Cancel(id));
    TrackedQuiet(s, ApplySession(s, t, Cancel(id)), t);
  }

  lemma TrackedConnClosed(s: State, t: Tid, id: Id)
    requires Shape(s) && SessionInv(s) && EnabledSession(s, t, ConnClosed(id))
    ensures SessionInv(ApplySession(s, t, ConnClosed(id)))
  {
    SessionFrame(s, t, ConnClosed(id));
    TrackedFrame(s, ApplySession(s, t, ConnClosed(id)), t);
  }

  lemma TrackedSession(s: State, t: Tid, n: SessionEvent)
    requires Shape(s) && SessionInv(s) && EnabledSession(s, t, n)
    ensures SessionInv(ApplySession(s, t, n))
  {
    if n.Cancel? {
      TrackedCancel(s, t, n.id);
    } else if n.ConnClosed? {
      TrackedConnClosed(s, t, n.id);
    } else {
      SessionFrame(s, t, n);
      assert Tracked(s, t);
      TrackedFrame(s, ApplySession(s, t, n), t);
    }
  }

  lemma TrackedClose(s: State, t: Tid, c: CloseEvent)
    requires Shape(s) && SessionInv(s) && EnabledClose(s, t, c)
    ensures SessionInv(ApplyClose(s, t, c))
  {
    CloseFrame(s, t, c);
    assert Tracked(s, t);
    TrackedFrame(s, ApplyClose(s, t, c), t);
  }

  lemma TrackedTear(s: State, t: Tid, id: Id)
    requires Shape(s) && SessionInv(s) && EnabledCoordinator(s, t, TearCut(id))
    ensures SessionInv(ApplyCoordinator(s, t, TearCut(id)))
  {
    CoordinatorFrame(s, t, TearCut(id));
    TrackedFrame(s, ApplyCoordinator(s, t, TearCut(id)), t);
  }

  lemma TrackedCoordinator(s: State, t: Tid, d: CoordinatorEvent)
    requires Shape(s) && SessionInv(s) && EnabledCoordinator(s, t, d)
    ensures SessionInv(ApplyCoordinator(s, t, d))
  {
    if d.TearCut? {
      TrackedTear(s, t, d.id);
    } else {
      CoordinatorFrame(s, t, d);
      TrackedQuiet(s, ApplyCoordinator(s, t, d), t);
    }
  }

  // ---------------------------------------------------------------- every step

  /** Nothing but the clock and the store differs. */
  ghost predicate SameButStore(s: State, s': State) {
    s' == s.(now := s'.now, store := s'.store)
  }

  lemma ManagerUntouched(s: State, s': State)
    requires SameButStore(s, s') && HoldingInv(s) && ForwardInv(s)
    ensures HoldingInv(s') && ForwardInv(s')
  {
    forall t | t in s'.pcs ensures ThreadHolds(s', t) {
      assert ThreadHolds(s, t);
    }
    forall f | f in s'.fwds && s'.fwds[f].open ensures Accounted(s', f) {
      assert Accounted(s, f);
      assert forall id :: LinkedAt(s, id, f) ==> LinkedAt(s', id, f);
      assert forall t :: Owns(s, t, f) ==> Owns(s', t, f);
    }
  }

  lemma SessionsUntouched(s: State, s': State)
    requires SameButStore(s, s') && SessionInv(s)
    ensures SessionInv(s')
  {
    assert forall u, v :: WillHangUp(s, u, v) ==> WillHangUp(s', u, v);
    forall t | t in s'.pcs ensures Tracked(s', t) {
      assert Tracked(s, t);
    }
  }

  lemma KeptStore(s: State, e: StoreEvent)
    requires Inv(s) && EnabledStore(s, e)
    ensures Inv(ApplyStore(s, e))
  {
    var s' := ApplyStore(s, e);
    BackedStore(s, e);
    SweptStore(s, e);
    assert SameButStore(s, s');
    ManagerUntouched(s, s');
    SessionsUntouched(s, s');
  }

  lemma KeptRegister(s: State, t: Tid, r: RegisterEvent)
    requires Inv(s) && EnabledRegister(s, t, r)
    ensures Inv(ApplyRegister(s, t, r))
  {
    LockRegister(s, t, r);
    BackedRegister(s, t, r);
    SweptRegister(s, t, r);
    TrackedRegister(s, t, r);
    if r.RegInstall? {
      ShapeRegInstall(s, t, r.id, r.sid);
      ForwardsRegInstall(s, t, r.id, r.sid);
    } else {
      RegisterFrame(s, t, r);
      HoldingLocal(s, ApplyRegister(s, t, r), t);
      ForwardsLocal(s, ApplyRegister(s, t, r), t);
    }
  }

  lemma KeptStart(s: State, t: Tid, f: StartEvent)
    requires Inv(s) && EnabledStart(s, t, f)
    ensures Inv(ApplyStart(s, t, f))
  {
    LockStart(s, t, f);
    BackedStart(s, t, f);
    SweptStart(s, t, f);
    TrackedStart(s, t, f);
    match f
    case StListen(g) => ShapeStListen(s, t, g); ForwardsStListen(s, t, g);
    case StInstall => ShapeStInstall(s, t); ForwardsStInstall(s, t);
    case _ =>
      StartFrame(s, t, f);
      HoldingLocal(s, ApplyStart(s, t, f), t);
      ForwardsLocal(s, ApplyStart(s, t, f), t);
  }

  lemma ShapeSession(s: State, t: Tid, n: SessionEvent)
    requires Shape(s) && ForwardInv(s) && EnabledSession(s, t, n)
    ensures PointerInv(ApplySession(s, t, n)) && HoldingInv(ApplySession(s, t, n)) && ForwardInv(ApplySession(s, t, n))
  {
    var s' := ApplySession(s, t, n);
    SessionFrame(s, t, n);
    match n
    case Cancel(id) => ShapeCancel(s, t, id); ForwardsCancel(s, t, id);
    case CancelClose => ShapeShut(s, s', t); ForwardsShut(s, s', t, {s.pcs[t].f});
    case ConnClosed(id) =>
      if Registered(s, id, t) {
        ShapeUnlink(s, s', t, id);
        ForwardsUnlink(s, s', t, id);
      } else {
        HoldingLocal(s, s', t);
        ForwardsLocal(s, s', t);
      }
    case _ => HoldingLocal(s, s', t); ForwardsLocal(s, s', t);
  }

  lemma KeptSession(s: State, t: Tid, n: SessionEvent)
    requires Inv(s) && EnabledSession(s, t, n)
    ensures Inv(ApplySession(s, t, n))
  {
    LockSession(s, t, n);
    BackedSession(s, t, n);
    SweptSession(s, t, n);
    TrackedSession(s, t, n);
    ShapeSession(s, t, n);
  }

  lemma ShapeClose(s: State, t: Tid, c: CloseEvent)
    requires Shape(s) && ForwardInv(s) && EnabledClose(s, t, c)
    ensures PointerInv(ApplyClose(s, t, c)) && HoldingInv(ApplyClose(s, t, c)) && ForwardInv(ApplyClose(s, t, c))
  {
    var s' := ApplyClose(s, t, c);
    CloseFrame(s, t, c);
    match c
    case CloseFwd =>
      var f := s.states[s.pcs[t].sid].fwd;
      ShapeShut(s, s', t);
      ForwardsShut(s, s', t, if f.Some? then {f.value} else {});
    case CloseConn =>
      HoldingLocal(s, s', t);
      ForwardsLocal(s, s', t);
  }

  lemma KeptClose(s: State, t: Tid, c: CloseEvent)
    requires Inv(s) && EnabledClose(s, t, c)
    ensures Inv(ApplyClose(s, t, c))
  {
    LockClose(s, t, c);
    BackedClose(s, t, c);
    SweptClose(s, t, c);
    TrackedClose(s, t, c);
    ShapeClose(s, t, c);
  }

  lemma KeptCoordinator(s: State, t: Tid, d: CoordinatorEvent)
    requires Inv(s) && EnabledCoordinator(s, t, d)
    ensures Inv(ApplyCoordinator(s, t, d))
  {
    var s' := ApplyCoordinator(s, t, d);
    LockCoordinator(s, t, d);
    BackedCoordinator(s, t, d);
    SweptCoordinator(s, t, d);
    TrackedCoordinator(s, t, d);
    CoordinatorFrame(s, t, d);
    if d.TearCut? && d.id in s.table {
      ShapeUnlink(s, s', t, d.id);
      ForwardsUnlink(s, s', t, d.id);
    } else {
      HoldingLocal(s, s', t);
      ForwardsLocal(s, s', t);
    }
  }

  lemma StepKeepsInv(s: State, a: Step)
    requires Inv(s) && Enabled(s, a)
    ensures Inv(Apply(s, a))
  {
    match a
    case OnStore(e) => KeptStore(s, e);
    case OnRegister(t, r) => KeptRegister(s, t, r);
    case OnStart(t, f) => KeptStart(s, t, f);
    case OnSession(t, n) => KeptSession(s, t, n);
    case OnClose(t, c) => KeptClose(s, t, c);
    case OnCoordinator(t, d) => KeptCoordinator(s, t, d);
  }

  lemma {:induction false} RunKeepsInv(s: State, tr: seq<Step>)
    requires Init(s) && Feasible(s, tr)
    ensures Inv(Exec(s, tr))
  {
    if tr != [] {
      RunKeepsInv(s, tr[..|tr| - 1]);
      StepKeepsInv(Exec(s, tr[..|tr| - 1]), tr[|tr| - 1]);
    }
  }
}

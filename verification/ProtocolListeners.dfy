/** The converse of `ForwardInv`: whatever still accounts for a forward finds its
    listener open, so no listener is closed twice. */
module ProtocolListeners {
  import opened Protocol
  import opened ProtocolProofs

  /** Whatever accounts for a forward finds its listener still open. */
  ghost predicate OpenInv(s: State) {
    forall f :: Accounted(s, f) ==> f in s.fwds && s.fwds[f].open
  }

  lemma AccountedOnce(s: State, f: Fid)
    requires PointerInv(s) && HoldingInv(s)
    ensures forall i, j :: LinkedAt(s, i, f) && LinkedAt(s, j, f) ==> i == j
    ensures forall t, u :: Owns(s, t, f) && Owns(s, u, f) ==> t == u
    ensures forall i, t :: LinkedAt(s, i, f) ==> !Owns(s, t, f)
  {
    forall t, u | Owns(s, t, f) && Owns(s, u, f) ensures t == u {
      assert ThreadHolds(s, t) && ThreadHolds(s, u);
      assert t != u ==> Apart(s.pcs[t], s.pcs[u]);
    }
    forall i, t | LinkedAt(s, i, f) ensures !Owns(s, t, f) {
      assert t in s.pcs ==> ThreadHolds(s, t);
    }
  }

  /** A step after which every accounted forward was accounted before and was not shut keeps OpenInv. */
  lemma OpenFrame(s: State, s': State)
    requires OpenInv(s)
    requires forall f :: Accounted(s', f) ==> Accounted(s, f) && f in s'.fwds && (f in s.fwds ==> s'.fwds[f] == s.fwds[f])
    ensures OpenInv(s')
  {
  }

  lemma OpenLocal(s: State, s': State, t: Tid)
    requires OpenInv(s) && Local(s, s', t)
    ensures OpenInv(s')
  {
    forall f | Accounted(s', f) ensures Accounted(s, f) {
      if i :| LinkedAt(s', i, f) {
        assert LinkedAt(s, i, f);
      } else {
        var u :| Owns(s', u, f);
        assert Owns(s, u, f);
      }
    }
    OpenFrame(s, s');
  }

  lemma OpenRegInstall(s: State, t: Tid, id: Id, sid: Sid)
    requires Shape(s) && OpenInv(s) && EnabledRegister(s, t, RegInstall(id, sid))
    ensures OpenInv(ApplyRegister(s, t, RegInstall(id, sid)))
  {
    var s' := ApplyRegister(s, t, RegInstall(id, sid));
    forall f | Accounted(s', f) ensures Accounted(s, f) {
      if i :| LinkedAt(s', i, f) {
        assert LinkedAt(s, i, f);
      } else {
        var u :| Owns(s', u, f);
        assert if u == t then LinkedAt(s, id, f) else Owns(s, u, f);
      }
    }
  }

  lemma OpenStListen(s: State, t: Tid, g: Fid)
    requires Shape(s) && OpenInv(s) && EnabledStart(s, t, StListen(g))
    ensures OpenInv(ApplyStart(s, t, StListen(g)))
  {
    var s' := ApplyStart(s, t, StListen(g));
    forall f | Accounted(s', f) && f != g ensures Accounted(s, f) {
      if i :| LinkedAt(s', i, f) {
        assert LinkedAt(s, i, f);
      } else {
        var u :| Owns(s', u, f);
        assert Owns(s, u, f);
      }
    }
  }

  lemma OpenStInstall(s: State, t: Tid)
    requires Shape(s) && OpenInv(s) && EnabledStart(s, t, StInstall)
    ensures OpenInv(ApplyStart(s, t, StInstall))
  {
    var s' := ApplyStart(s, t, StInstall);
    assert ThreadHolds(s, t);
    forall f | Accounted(s', f) ensures Accounted(s, f) {
      if i :| LinkedAt(s', i, f) {
        assert LinkedAt(s, i, f) || Owns(s, t, f);
      } else {
        var u :| Owns(s', u, f);
        assert ThreadHolds(s, u);
        assert Owns(s, u, f);
      }
    }
  }

  lemma OpenCancel(s: State, t: Tid, id: Id)
    requires Shape(s) && OpenInv(s) && EnabledSession(s, t, Cancel(id))
    ensures OpenInv(ApplySession(s, t, Cancel(id)))
  {
    var s' := ApplySession(s, t, Cancel(id));
    forall f | Accounted(s', f) ensures Accounted(s, f) {
      if i :| LinkedAt(s', i, f) {
        assert LinkedAt(s, i, f);
      } else {
        var u :| Owns(s', u, f);
        assert u != t ==> ThreadHolds(s, u);
        assert if u == t then LinkedAt(s, id, f) else Owns(s, u, f);
      }
    }
  }

  /** Shutting the forward t owns leaves nobody else accounting for it. */
  lemma OpenShut(s: State, s': State, t: Tid, shut: set<Fid>)
    requires Shape(s) && OpenInv(s) && MovesOnly(s, s', t) && s'.table == s.table && s'.states == s.states
    requires s'.fwds.Keys == s.fwds.Keys && !Owing(s'.pcs[t])
    requires forall f :: f in s.fwds && f !in shut ==> s'.fwds[f] == s.fwds[f]
    requires forall f :: f in shut ==> Owns(s, t, f)
    ensures OpenInv(s')
  {
    forall f | Accounted(s', f) ensures Accounted(s, f) && f !in shut {
      AccountedOnce(s, f);
      if i :| LinkedAt(s', i, f) {
        assert LinkedAt(s, i, f);
      } else {
        var u :| Owns(s', u, f);
        assert Owns(s, u, f);
      }
    }
  }

  lemma OpenUnlink(s: State, s': State, t: Tid, id: Id)
    requires Shape(s) && OpenInv(s) && MovesOnly(s, s', t) && id in s.table
    requires s'.table == s.table - {id} && s'.states == s.states && s'.fwds == s.fwds
    requires s'.pcs[t].Closing? && !s'.pcs[t].fwdDone && s'.pcs[t].sid == s.table[id]
    ensures OpenInv(s')
  {
    forall f | Accounted(s', f) ensures Accounted(s, f) {
      if i :| LinkedAt(s', i, f) {
        assert LinkedAt(s, i, f);
      } else {
        var u :| Owns(s', u, f);
        assert if u == t then LinkedAt(s, id, f) else Owns(s, u, f);
      }
    }
  }

  lemma OpenSession(s: State, t: Tid, n: SessionEvent)
    requires Shape(s) && OpenInv(s) && EnabledSession(s, t, n)
    ensures OpenInv(ApplySession(s, t, n))
  {
    var s' := ApplySession(s, t, n);
    SessionFrame(s, t, n);
    match n
    case Cancel(id) => OpenCancel(s, t, id);
    case CancelClose => OpenShut(s, s', t, {s.pcs[t].f});
    case ConnClosed(id) =>
      if Registered(s, id, t) {
        OpenUnlink(s, s', t, id);
      } else {
        OpenLocal(s, s', t);
      }
    case _ => OpenLocal(s, s', t);
  }

  lemma OpenClose(s: State, t: Tid, c: CloseEvent)
    requires Shape(s) && OpenInv(s) && EnabledClose(s, t, c)
    ensures OpenInv(ApplyClose(s, t, c))
  {
    var s' := ApplyClose(s, t, c);
    CloseFrame(s, t, c);
    if c.CloseFwd? {
      var f := s.states[s.pcs[t].sid].fwd;
      OpenShut(s, s', t, if f.Some? then {f.value} else {});
    } else {
      OpenLocal(s, s', t);
    }
  }

  lemma OpenCoordinator(s: State, t: Tid, d: CoordinatorEvent)
    requires Shape(s) && OpenInv(s) && EnabledCoordinator(s, t, d)
    ensures OpenInv(ApplyCoordinator(s, t, d))
  {
    var s' := ApplyCoordinator(s, t, d);
    CoordinatorFrame(s, t, d);
    if d.TearCut? && d.id in s.table {
      OpenUnlink(s, s', t, d.id);
    } else {
      OpenLocal(s, s', t);
    }
  }

  lemma OpenStart(s: State, t: Tid, f: StartEvent)
    requires Shape(s) && OpenInv(s) && EnabledStart(s, t, f)
    ensures OpenInv(ApplyStart(s, t, f))
  {
    StartFrame(s, t, f);
    match f
    case StListen(g) => OpenStListen(s, t, g);
    case StInstall => OpenStInstall(s, t);
    case _ => OpenLocal(s, ApplyStart(s, t, f), t);
  }

  lemma OpenStore(s: State, e: StoreEvent)
    requires OpenInv(s) && EnabledStore(s, e)
    ensures OpenInv(ApplyStore(s, e))
  {
    var s' := ApplyStore(s, e);
    forall f | Accounted(s', f) ensures Accounted(s, f) {
      assert forall i :: LinkedAt(s', i, f) ==> LinkedAt(s, i, f);
      assert forall u :: Owns(s', u, f) ==> Owns(s, u, f);
    }
  }

  lemma OpenKept(s: State, a: Step)
    requires Shape(s) && OpenInv(s) && Enabled(s, a)
    ensures OpenInv(Apply(s, a))
  {
    match a
    case OnStore(e) => OpenStore(s, e);
    case OnRegister(t, r) =>
      if r.RegInstall? {
        OpenRegInstall(s, t, r.id, r.sid);
      } else {
        RegisterFrame(s, t, r);
        OpenLocal(s, ApplyRegister(s, t, r), t);
      }
    case OnStart(t, f) => OpenStart(s, t, f);
    case OnSession(t, n) => OpenSession(s, t, n);
    case OnClose(t, c) => OpenClose(s, t, c);
    case OnCoordinator(t, d) => OpenCoordinator(s, t, d);
  }

  lemma {:induction false} RunKeepsOpen(s: State, tr: seq<Step>)
    requires Init(s) && Feasible(s, tr)
    ensures OpenInv(Exec(s, tr))
  {
    if tr != [] {
      RunKeepsOpen(s, tr[..|tr| - 1]);
      RunKeepsInv(s, tr[..|tr| - 1]);
      OpenKept(Exec(s, tr[..|tr| - 1]), tr[|tr| - 1]);
    }
  }
}

/** Exactly when StartForward puts its listener up for a lease that is still there, and on the
    port that is still the lease's: what counts is the window between its store read and its
    install, during which it holds Manager.mu but not Store.mu. */
module ProtocolInstalls {
  import opened Protocol
  import opened ProtocolProofs
  import opened ProtocolTheorems

  // ---------------------------------------------------------------- the window

  /** No removal of `id` among the steps after g and before m. */
  ghost predicate Untouched(tr: seq<Step>, g: nat, m: nat, id: Id)
    requires m <= |tr|
  {
    forall n :: g < n < m ==> !Takes(tr[n], id)
  }

  /** Step c after g creates `id`, and no removal follows before m. */
  ghost predicate RestoredAt(tr: seq<Step>, g: nat, c: nat, m: nat, id: Id)
    requires m <= |tr|
  {
    g < c < m && Creates(tr[c], id) && Untouched(tr, c, m, id)
  }

  ghost predicate Restored(tr: seq<Step>, g: nat, m: nat, id: Id)
    requires m <= |tr|
  {
    exists c: nat :: RestoredAt(tr, g, c, m, id)
  }

  /** The same, and the create gave the lease this port. */
  ghost predicate RestoredOn(tr: seq<Step>, g: nat, m: nat, id: Id, port: int)
    requires m <= |tr|
  {
    exists c: nat :: RestoredAt(tr, g, c, m, id) && tr[c].e.port == port
  }

  /** Step g is t's latest store read in StartForward before step k, and it found the lease. */
  ghost predicate ReadFor(s0: State, tr: seq<Step>, g: nat, k: nat, t: Tid, id: Id)
    requires Feasible(s0, tr) && k <= |tr|
  {
    && g < k && tr[g] == OnStart(t, StGet)
    && (forall n :: g < n < k ==> tr[n] != OnStart(t, StGet))
    && At(StateAt(s0, tr, g), t, StLocked(id)) && id in StateAt(s0, tr, g).store
  }

  // ---------------------------------------------------------------- the store in the window

  lemma StoreStep(s: State, a: Step, id: Id)
    requires Enabled(s, a)
    ensures Takes(a, id) ==> id !in Apply(s, a).store
    ensures Creates(a, id) ==> id !in s.store && id in Apply(s, a).store && Apply(s, a).store[id].port == a.e.port
    ensures !Takes(a, id) && !Creates(a, id) ==>
      && (id in Apply(s, a).store <==> id in s.store)
      && (id in s.store ==> Apply(s, a).store[id].port == s.store[id].port)
  {
    match a
    case OnStore(e) =>
    case OnRegister(t, r) => RegisterFrame(s, t, r);
    case OnStart(t, f) => StartFrame(s, t, f);
    case OnSession(t, n) => SessionFrame(s, t, n);
    case OnClose(t, c) => CloseFrame(s, t, c);
    case OnCoordinator(t, d) =>
  }

  /** One more step: the window stays clean, or ends in a restoring create, as the step says. */
  lemma WindowStep(tr: seq<Step>, g: nat, m: nat, id: Id, port: int)
    requires g < m < |tr|
    ensures Untouched(tr, g, m + 1, id) <==> Untouched(tr, g, m, id) && !Takes(tr[m], id)
    ensures Restored(tr, g, m + 1, id) <==> Creates(tr[m], id) || (Restored(tr, g, m, id) && !Takes(tr[m], id))
    ensures RestoredOn(tr, g, m + 1, id, port) <==>
      (Creates(tr[m], id) && tr[m].e.port == port) || (RestoredOn(tr, g, m, id, port) && !Takes(tr[m], id))
  {
    var n := m + 1;
    assert RestoredAt(tr, g, m, n, id) <==> Creates(tr[m], id);
    forall c: nat | c != m ensures RestoredAt(tr, g, c, n, id) <==> RestoredAt(tr, g, c, m, id) && !Takes(tr[m], id) {
    }
    if c: nat :| RestoredAt(tr, g, c, m, id) {
      assert RestoredAt(tr, g, c, n, id) <==> !Takes(tr[m], id);
    }
    if c: nat :| RestoredAt(tr, g, c, n, id) {
      assert c == m || RestoredAt(tr, g, c, m, id);
    }
  }

  ghost predicate WindowTells(s0: State, tr: seq<Step>, g: nat, m: nat, id: Id, port: int)
    requires Feasible(s0, tr) && m <= |tr|
  {
    var store := StateAt(s0, tr, m).store;
    && (id in store <==> Untouched(tr, g, m, id) || Restored(tr, g, m, id))
    && (id in store && store[id].port == port <==> Untouched(tr, g, m, id) || RestoredOn(tr, g, m, id, port))
  }

  /** From a state where the lease exists, what happened since tells whether it exists, and
      whether on the same port. */
  lemma {:induction false} WindowDecides(s0: State, tr: seq<Step>, g: nat, m: nat, id: Id, port: int)
    requires Feasible(s0, tr) && g < m <= |tr| && tr[g].OnStart?
    requires id in StateAt(s0, tr, g).store && StateAt(s0, tr, g).store[id].port == port
    ensures WindowTells(s0, tr, g, m, id, port)
    decreases m
  {
    StateAtStep(s0, tr, m - 1);
    StoreStep(StateAt(s0, tr, m - 1), tr[m - 1], id);
    if m > g + 1 {
      WindowDecides(s0, tr, g, m - 1, id, port);
      WindowStep(tr, g, m - 1, id, port);
    }
  }

  // ---------------------------------------------------------------- the thread in the window

  predicate InWindow(pc: PC) {
    pc.StRead? || pc.StOk? || pc.StBound?
  }

  /** What t holds is this copy of this lease, or a listener on its port. */
  predicate Carries(s: State, t: Tid, id: Id, l: Lease) {
    t in s.pcs && InWindow(s.pcs[t]) ==>
      && s.pcs[t].id == id
      && (if s.pcs[t].StBound? then s.pcs[t].f in s.fwds && s.fwds[s.pcs[t].f].port == l.port else s.pcs[t].l == l)
  }

  /** A listener never changes its port. */
  ghost predicate PortsFixed(s: State, s': State) {
    forall f :: f in s.fwds ==> f in s'.fwds && s'.fwds[f].port == s.fwds[f].port
  }

  lemma CarriesStart(s: State, t: Tid, u: Tid, f: StartEvent, id: Id, l: Lease)
    requires EnabledStart(s, u, f) && Carries(s, t, id, l) && !(u == t && f == StGet)
    ensures Carries(ApplyStart(s, u, f), t, id, l)
  {
  }

  /** Thread u alone moves, to a point outside the window. */
  ghost predicate Outside(s: State, s': State, u: Tid) {
    MovesOnly(s, s', u) && PortsFixed(s, s') && !InWindow(s'.pcs[u])
  }

  lemma OutsideRegister(s: State, u: Tid, r: RegisterEvent)
    requires EnabledRegister(s, u, r)
    ensures Outside(s, ApplyRegister(s, u, r), u)
  {
  }

  lemma OutsideSession(s: State, u: Tid, n: SessionEvent)
    requires EnabledSession(s, u, n)
    ensures Outside(s, ApplySession(s, u, n), u)
  {
  }

  lemma OutsideClose(s: State, u: Tid, c: CloseEvent)
    requires EnabledClose(s, u, c)
    ensures Outside(s, ApplyClose(s, u, c), u)
  {
  }

  lemma OutsideCoordinator(s: State, u: Tid, d: CoordinatorEvent)
    requires EnabledCoordinator(s, u, d)
    ensures Outside(s, ApplyCoordinator(s, u, d), u)
  {
  }

  lemma OutsideStep(s: State, a: Step)
    requires Enabled(s, a) && !a.OnStore? && !a.OnStart?
    ensures Outside(s, Apply(s, a), a.t)
  {
    match a
    case OnRegister(u, r) => OutsideRegister(s, u, r);
    case OnSession(u, n) => OutsideSession(s, u, n);
    case OnClose(u, c) => OutsideClose(s, u, c);
    case OnCoordinator(u, d) => OutsideCoordinator(s, u, d);
  }

  lemma CarriesStep(s: State, a: Step, t: Tid, id: Id, l: Lease)
    requires Enabled(s, a) && Carries(s, t, id, l) && a != OnStart(t, StGet)
    ensures Carries(Apply(s, a), t, id, l)
  {
    if a.OnStart? {
      CarriesStart(s, t, a.t, a.f, id, l);
    } else if !a.OnStore? {
      OutsideStep(s, a);
    }
  }

  lemma {:induction false} CarriesRead(s0: State, tr: seq<Step>, g: nat, m: nat, t: Tid, id: Id)
    requires Feasible(s0, tr) && m <= |tr| && ReadFor(s0, tr, g, m, t, id)
    ensures Carries(StateAt(s0, tr, m), t, id, StateAt(s0, tr, g).store[id])
    decreases m
  {
    StateAtStep(s0, tr, m - 1);
    if m > g + 1 {
      CarriesRead(s0, tr, g, m - 1, t, id);
      CarriesStep(StateAt(s0, tr, m - 1), tr[m - 1], t, id, StateAt(s0, tr, g).store[id]);
    }
  }

  /** t is in the window after a step because it was before, or because the step is its read. */
  ghost predicate Entered(s: State, s': State, a: Step, t: Tid)
    requires t in s'.pcs && InWindow(s'.pcs[t])
  {
    && t in s.pcs
    && if a == OnStart(t, StGet) then At(s, t, StLocked(s'.pcs[t].id)) && s'.pcs[t].id in s.store
       else InWindow(s.pcs[t]) && s'.pcs[t].id == s.pcs[t].id
  }

  lemma EntersByOwnStart(s: State, t: Tid, f: StartEvent)
    requires EnabledStart(s, t, f) && t in ApplyStart(s, t, f).pcs && InWindow(ApplyStart(s, t, f).pcs[t])
    ensures Entered(s, ApplyStart(s, t, f), OnStart(t, f), t)
  {
  }

  lemma EntersByStart(s: State, u: Tid, f: StartEvent, t: Tid)
    requires EnabledStart(s, u, f) && t in ApplyStart(s, u, f).pcs && InWindow(ApplyStart(s, u, f).pcs[t])
    ensures Entered(s, ApplyStart(s, u, f), OnStart(u, f), t)
  {
    if u == t {
      EntersByOwnStart(s, t, f);
    } else {
      StartFrame(s, u, f);
    }
  }

  lemma EntersWindow(s: State, a: Step, t: Tid)
    requires Enabled(s, a) && t in Apply(s, a).pcs && InWindow(Apply(s, a).pcs[t])
    ensures Entered(s, Apply(s, a), a, t)
  {
    if a.OnStart? {
      EntersByStart(s, a.t, a.f, t);
    } else if !a.OnStore? {
      OutsideStep(s, a);
    }
  }

  lemma {:induction false} WindowHasRead(s0: State, tr: seq<Step>, m: nat, t: Tid)
    requires Init(s0) && Feasible(s0, tr) && m <= |tr|
    requires t in StateAt(s0, tr, m).pcs && InWindow(StateAt(s0, tr, m).pcs[t])
    ensures exists g :: ReadFor(s0, tr, g, m, t, StateAt(s0, tr, m).pcs[t].id)
  {
    if m > 0 {
      var id := StateAt(s0, tr, m).pcs[t].id;
      StateAtStep(s0, tr, m - 1);
      EntersWindow(StateAt(s0, tr, m - 1), tr[m - 1], t);
      if tr[m - 1] == OnStart(t, StGet) {
        assert ReadFor(s0, tr, m - 1, m, t, id);
      } else {
        WindowHasRead(s0, tr, m - 1, t);
        var g :| ReadFor(s0, tr, g, m - 1, t, id);
        assert ReadFor(s0, tr, g, m, t, id);
      }
    }
  }

  // ---------------------------------------------------------------- the expiry check

  predicate PastCheck(pc: PC) {
    pc.StOk? || pc.StBound?
  }

  /** Between g and m, t found the copy it had read to be unexpired. */
  ghost predicate CheckedIn(s0: State, tr: seq<Step>, g: nat, m: nat, t: Tid, l: Lease)
    requires Feasible(s0, tr) && m <= |tr|
  {
    exists c: nat :: g < c < m && tr[c] == OnStart(t, StCheck) && StateAt(s0, tr, c).now < l.expires
  }

  lemma ChecksByStart(s: State, u: Tid, f: StartEvent, t: Tid)
    requires EnabledStart(s, u, f) && t in ApplyStart(s, u, f).pcs && PastCheck(ApplyStart(s, u, f).pcs[t])
    ensures t in s.pcs
    ensures PastCheck(s.pcs[t]) || (u == t && f == StCheck && s.pcs[t].StRead? && s.now < s.pcs[t].l.expires)
  {
  }

  lemma ChecksStep(s: State, a: Step, t: Tid)
    requires Enabled(s, a) && t in Apply(s, a).pcs && PastCheck(Apply(s, a).pcs[t])
    ensures t in s.pcs
    ensures PastCheck(s.pcs[t]) || (a == OnStart(t, StCheck) && s.pcs[t].StRead? && s.now < s.pcs[t].l.expires)
  {
    if a.OnStart? {
      ChecksByStart(s, a.t, a.f, t);
    } else if !a.OnStore? {
      OutsideStep(s, a);
    }
  }

  lemma {:induction false} PastCheckWasChecked(s0: State, tr: seq<Step>, g: nat, m: nat, t: Tid, id: Id)
    requires Feasible(s0, tr) && m <= |tr| && ReadFor(s0, tr, g, m, t, id)
    requires t in StateAt(s0, tr, m).pcs && PastCheck(StateAt(s0, tr, m).pcs[t])
    ensures CheckedIn(s0, tr, g, m, t, StateAt(s0, tr, g).store[id])
    decreases m
  {
    var c, l := m - 1, StateAt(s0, tr, g).store[id];
    StateAtStep(s0, tr, c);
    ChecksStep(StateAt(s0, tr, c), tr[c], t);
    if c > g {
      if PastCheck(StateAt(s0, tr, c).pcs[t]) {
        PastCheckWasChecked(s0, tr, g, c, t, id);
        var d: nat :| g < d < c && tr[d] == OnStart(t, StCheck) && StateAt(s0, tr, d).now < l.expires;
        assert g < d < m;
      } else {
        CarriesRead(s0, tr, g, c, t, id);
        assert g < c < m && tr[c] == OnStart(t, StCheck) && StateAt(s0, tr, c).now < l.expires;
      }
    }
  }

  // ---------------------------------------------------------------- installs

  /** Step k installs the listener f for `id`, on the given port. */
  ghost predicate Installs(s0: State, tr: seq<Step>, k: nat, t: Tid, id: Id, f: Fid, port: int)
    requires Feasible(s0, tr) && k < |tr|
  {
    && tr[k] == OnStart(t, StInstall) && At(StateAt(s0, tr, k), t, StBound(id, f))
    && LinkedAt(StateAt(s0, tr, k + 1), id, f)
    && f in StateAt(s0, tr, k + 1).fwds && StateAt(s0, tr, k + 1).fwds[f].port == port
  }

  lemma InstallStep(s: State, t: Tid)
    requires EnabledStart(s, t, StInstall)
    ensures
      var s' := ApplyStart(s, t, StInstall);
      s'.store == s.store && s'.fwds == s.fwds && LinkedAt(s', s.pcs[t].id, s.pcs[t].f)
  {
  }

  /** Every install of every run has its store read, found the lease unexpired after that, and
      listens on the port that was read. */
  lemma InstallHasRead(s0: State, tr: seq<Step>, k: nat, t: Tid)
    requires Init(s0) && Feasible(s0, tr) && k < |tr| && tr[k] == OnStart(t, StInstall)
    ensures exists g, id, f ::
      && ReadFor(s0, tr, g, k, t, id) && CheckedIn(s0, tr, g, k, t, StateAt(s0, tr, g).store[id])
      && Installs(s0, tr, k, t, id, f, StateAt(s0, tr, g).store[id].port)
  {
    StateAtStep(s0, tr, k);
    var s := StateAt(s0, tr, k);
    var id, f := s.pcs[t].id, s.pcs[t].f;
    InstallStep(s, t);
    WindowHasRead(s0, tr, k, t);
    var g :| ReadFor(s0, tr, g, k, t, id);
    CarriesRead(s0, tr, g, k, t, id);
    PastCheckWasChecked(s0, tr, g, k, t, id);
    assert Installs(s0, tr, k, t, id, f, StateAt(s0, tr, g).store[id].port);
  }

  lemma PortsFixedStart(s: State, u: Tid, f: StartEvent)
    requires EnabledStart(s, u, f)
    ensures PortsFixed(s, ApplyStart(s, u, f))
  {
  }

  lemma {:induction false} PortsFixedRun(s0: State, tr: seq<Step>, i: nat, m: nat)
    requires Feasible(s0, tr) && i <= m <= |tr|
    ensures PortsFixed(StateAt(s0, tr, i), StateAt(s0, tr, m))
    decreases m
  {
    if i < m {
      PortsFixedRun(s0, tr, i, m - 1);
      StateAtStep(s0, tr, m - 1);
      var s, a := StateAt(s0, tr, m - 1), tr[m - 1];
      if a.OnStart? {
        PortsFixedStart(s, a.t, a.f);
      } else if !a.OnStore? {
        OutsideStep(s, a);
      }
    }
  }

  /** From its install on, at every later moment: the lease exists if and only if no removal fell
      after the store read, or a create after the last one brought it back; and the listener is
      on the lease's port if and only if that create, if there was one, gave the same port. */
  lemma InstallOnLeasePortIff(s0: State, tr: seq<Step>, g: nat, k: nat, m: nat, t: Tid, id: Id, f: Fid, port: int)
    requires Init(s0) && Feasible(s0, tr) && k < m <= |tr|
    requires ReadFor(s0, tr, g, k, t, id) && Installs(s0, tr, k, t, id, f, port)
    ensures
      var s := StateAt(s0, tr, m);
      && f in s.fwds && s.fwds[f].port == port
      && (id in s.store <==> Untouched(tr, g, m, id) || Restored(tr, g, m, id))
      && (id in s.store && s.store[id].port == port <==> Untouched(tr, g, m, id) || RestoredOn(tr, g, m, id, port))
  {
    CarriesRead(s0, tr, g, k, t, id);
    StateAtStep(s0, tr, k);
    InstallStep(StateAt(s0, tr, k), t);
    PortsFixedRun(s0, tr, k + 1, m);
    WindowDecides(s0, tr, g, m, id, port);
  }

  // ---------------------------------------------------------------- every linked forward

  /** f is the forward of `id` after the step because it was before, or because the step installs it. */
  ghost predicate LinkedBy(s: State, a: Step, id: Id, f: Fid) {
    LinkedAt(s, id, f) || (a.OnStart? && a.f == StInstall && At(s, a.t, StBound(id, f)))
  }

  lemma LinkStart(s: State, t: Tid, e: StartEvent, id: Id, f: Fid)
    requires PointerInv(s) && EnabledStart(s, t, e) && LinkedAt(ApplyStart(s, t, e), id, f)
    ensures LinkedBy(s, OnStart(t, e), id, f)
  {
  }

  lemma LinkRegister(s: State, t: Tid, r: RegisterEvent, id: Id, f: Fid)
    requires EnabledRegister(s, t, r) && LinkedAt(ApplyRegister(s, t, r), id, f)
    ensures LinkedAt(s, id, f)
  {
  }

  lemma LinkSession(s: State, t: Tid, n: SessionEvent, id: Id, f: Fid)
    requires EnabledSession(s, t, n) && LinkedAt(ApplySession(s, t, n), id, f)
    ensures LinkedAt(s, id, f)
  {
  }

  lemma LinkStep(s: State, a: Step, id: Id, f: Fid)
    requires PointerInv(s) && Enabled(s, a) && LinkedAt(Apply(s, a), id, f)
    ensures LinkedBy(s, a, id, f)
  {
    match a
    case OnStore(e) =>
    case OnRegister(t, r) => LinkRegister(s, t, r, id, f);
    case OnStart(t, e) => LinkStart(s, t, e, id, f);
    case OnSession(t, n) => LinkSession(s, t, n, id, f);
    case OnClose(t, c) =>
    case OnCoordinator(t, d) =>
  }

  lemma {:induction false} LinkedHasInstall(s0: State, tr: seq<Step>, m: nat, id: Id, f: Fid)
    requires Init(s0) && Feasible(s0, tr) && m <= |tr| && LinkedAt(StateAt(s0, tr, m), id, f)
    ensures exists k, t :: 0 <= k < m && tr[k] == OnStart(t, StInstall) && At(StateAt(s0, tr, k), t, StBound(id, f))
  {
    if m > 0 {
      StateAtStep(s0, tr, m - 1);
      StateAtInv(s0, tr, m - 1);
      LinkStep(StateAt(s0, tr, m - 1), tr[m - 1], id, f);
      if LinkedAt(StateAt(s0, tr, m - 1), id, f) {
        LinkedHasInstall(s0, tr, m - 1, id, f);
      } else {
        assert At(StateAt(s0, tr, m - 1), tr[m - 1].t, StBound(id, f));
      }
    }
  }

  /** Step g read the lease for the listener f that step k installed, and it had not ended when
      the thread looked at the clock in between. */
  ghost predicate InstalledFrom(s0: State, tr: seq<Step>, g: nat, k: nat, t: Tid, id: Id, f: Fid)
    requires Feasible(s0, tr)
  {
    && k < |tr| && ReadFor(s0, tr, g, k, t, id) && CheckedIn(s0, tr, g, k, t, StateAt(s0, tr, g).store[id])
    && Installs(s0, tr, k, t, id, f, StateAt(s0, tr, g).store[id].port)
  }

  lemma LinkedInstalledFrom(s0: State, tr: seq<Step>, id: Id, f: Fid) returns (g: nat, k: nat, t: Tid)
    requires Init(s0) && Feasible(s0, tr) && LinkedAt(StateAt(s0, tr, |tr|), id, f)
    ensures InstalledFrom(s0, tr, g, k, t, id, f)
  {
    LinkedHasInstall(s0, tr, |tr|, id, f);
    k, t :| 0 <= k < |tr| && tr[k] == OnStart(t, StInstall) && At(StateAt(s0, tr, k), t, StBound(id, f));
    InstallHasRead(s0, tr, k, t);
    var id', f';
    g, id', f' :|
      && ReadFor(s0, tr, g, k, t, id') && CheckedIn(s0, tr, g, k, t, StateAt(s0, tr, g).store[id'])
      && Installs(s0, tr, k, t, id', f', StateAt(s0, tr, g).store[id'].port);
  }

  predicate OnLeasePort(s: State, id: Id, f: Fid) {
    id in s.store && f in s.fwds && s.store[id].port == s.fwds[f].port
  }

  /** In every reachable state, every linked forward goes back to an install and its store read,
      and is on the port its lease now has if and only if no removal fell since that read, or
      the create that followed the last one gave the same port. */
  lemma LinkedOnLeasePortIff(s0: State, tr: seq<Step>, id: Id, f: Fid)
    requires Init(s0) && Feasible(s0, tr) && LinkedAt(Exec(s0, tr), id, f)
    ensures f in Exec(s0, tr).fwds
    ensures exists g, k, t ::
      && InstalledFrom(s0, tr, g, k, t, id, f)
      && (OnLeasePort(Exec(s0, tr), id, f) <==>
            Untouched(tr, g, |tr|, id) || RestoredOn(tr, g, |tr|, id, Exec(s0, tr).fwds[f].port))
  {
    assert tr[..|tr|] == tr;
    var g, k, t := LinkedInstalledFrom(s0, tr, id, f);
    InstallOnLeasePortIff(s0, tr, g, k, |tr|, t, id, f, StateAt(s0, tr, g).store[id].port);
  }
}

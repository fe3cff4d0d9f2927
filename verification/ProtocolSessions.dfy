/** The life of a connection goroutine: it is let in only for a lease that was paid for at the
    check, turned away only for a reason, and does not end with its connection open. */
module ProtocolSessions {
  import opened Protocol
  import opened ProtocolProofs
  import opened ProtocolTheorems
  import opened ProtocolInstalls

  // ---------------------------------------------------------------- registrations

  /** Step g is t's store read in RegisterConn, and it found this copy of the lease. */
  ghost predicate RegReadAt(s0: State, tr: seq<Step>, g: nat, m: nat, t: Tid, id: Id, l: Lease)
    requires Feasible(s0, tr) && m <= |tr|
  {
    g < m && tr[g] == OnRegister(t, RegGet) && id in StateAt(s0, tr, g).store && StateAt(s0, tr, g).store[id] == l
  }

  ghost predicate RegChecked(s0: State, tr: seq<Step>, g: nat, c: nat, m: nat, t: Tid, id: Id, l: Lease)
    requires Feasible(s0, tr) && m <= |tr|
  {
    && c < m && RegReadAt(s0, tr, g, c, t, id, l)
    && tr[c] == OnRegister(t, RegCheck) && StateAt(s0, tr, c).now < l.expires
  }

  /** How t came to where it is in RegisterConn. */
  ghost predicate RegHistory(s0: State, tr: seq<Step>, m: nat, t: Tid)
    requires Feasible(s0, tr) && m <= |tr|
  {
    var s := StateAt(s0, tr, m);
    t in s.pcs ==>
      && (s.pcs[t].RegRead? ==> exists g :: RegReadAt(s0, tr, g, m, t, s.pcs[t].id, s.pcs[t].l))
      && (s.pcs[t].RegOk? ==> exists g, c, l :: RegChecked(s0, tr, g, c, m, t, s.pcs[t].id, l))
  }

  predicate InRegister(pc: PC) {
    pc.RegRead? || pc.RegOk?
  }

  /** What brings t to a point past the store read of RegisterConn. */
  ghost predicate RegMoved(s: State, s': State, a: Step, t: Tid)
    requires t in s'.pcs && InRegister(s'.pcs[t])
  {
    || (t in s.pcs && s.pcs[t] == s'.pcs[t])
    || (a == OnRegister(t, RegGet) && s'.pcs[t].RegRead? && s'.pcs[t].id in s.store && s'.pcs[t].l == s.store[s'.pcs[t].id])
    || (a == OnRegister(t, RegCheck) && t in s.pcs && s.pcs[t].RegRead? && s'.pcs[t] == RegOk(s.pcs[t].id) && s.now < s.pcs[t].l.expires)
  }

  lemma RegMovedByRegister(s: State, u: Tid, r: RegisterEvent, t: Tid)
    requires EnabledRegister(s, u, r) && t in ApplyRegister(s, u, r).pcs && InRegister(ApplyRegister(s, u, r).pcs[t])
    ensures RegMoved(s, ApplyRegister(s, u, r), OnRegister(u, r), t)
  {
  }

  ghost predicate StaysOut(s: State, s': State, u: Tid) {
    MovesOnly(s, s', u) && !InRegister(s'.pcs[u])
  }

  lemma OthersStayOut(s: State, a: Step)
    requires Enabled(s, a) && !a.OnStore? && !a.OnRegister?
    ensures StaysOut(s, Apply(s, a), a.t)
  {
    match a
    case OnStart(u, f) => StartFrame(s, u, f);
    case OnSession(u, n) => SessionFrame(s, u, n);
    case OnClose(u, c) => CloseFrame(s, u, c);
    case OnCoordinator(u, d) => CoordinatorFrame(s, u, d);
  }

  lemma RegMovedStep(s: State, a: Step, t: Tid)
    requires Enabled(s, a) && t in Apply(s, a).pcs && InRegister(Apply(s, a).pcs[t])
    ensures RegMoved(s, Apply(s, a), a, t)
  {
    if a.OnRegister? {
      RegMovedByRegister(s, a.t, a.r, t);
    } else if !a.OnStore? {
      OthersStayOut(s, a);
    }
  }

  lemma RegHistoryStep(s0: State, tr: seq<Step>, m: nat, t: Tid)
    requires Feasible(s0, tr) && m < |tr| && RegHistory(s0, tr, m, t)
    requires t in StateAt(s0, tr, m + 1).pcs && InRegister(StateAt(s0, tr, m + 1).pcs[t])
    ensures RegHistory(s0, tr, m + 1, t)
  {
    StateAtStep(s0, tr, m);
    var n, s, s' := m + 1, StateAt(s0, tr, m), StateAt(s0, tr, m + 1);
    RegMovedStep(s, tr[m], t);
    var id := s'.pcs[t].id;
    if t in s.pcs && s.pcs[t].RegRead? {
      var l := s.pcs[t].l;
      var g :| RegReadAt(s0, tr, g, m, t, id, l);
      assert RegReadAt(s0, tr, g, n, t, id, l);
      assert s'.pcs[t].RegOk? ==> RegChecked(s0, tr, g, m, n, t, id, l);
    } else if t in s.pcs && s.pcs[t].RegOk? {
      var g, c, l :| RegChecked(s0, tr, g, c, m, t, id, l);
      assert RegChecked(s0, tr, g, c, n, t, id, l);
    } else {
      assert RegReadAt(s0, tr, m, n, t, id, s'.pcs[t].l);
    }
  }

  lemma {:induction false} RegHistoryRun(s0: State, tr: seq<Step>, m: nat, t: Tid)
    requires Init(s0) && Feasible(s0, tr) && m <= |tr|
    ensures RegHistory(s0, tr, m, t)
  {
    if m > 0 {
      RegHistoryRun(s0, tr, m - 1, t);
      if t in StateAt(s0, tr, m).pcs && InRegister(StateAt(s0, tr, m).pcs[t]) {
        RegHistoryStep(s0, tr, m - 1, t);
      }
    }
  }

  /** Every registration of every run goes back to a store read that found the lease and to a
      later check at which that lease had not ended. */
  lemma RegistrationIsPaid(s0: State, tr: seq<Step>, k: nat, t: Tid, id: Id)
    requires Init(s0) && Feasible(s0, tr) && k < |tr| && Registers(tr[k], id, t)
    ensures exists g, c, l :: RegChecked(s0, tr, g, c, k, t, id, l)
  {
    StateAtStep(s0, tr, k);
    RegHistoryRun(s0, tr, k, t);
  }

  /** RegisterConn turns a connection away only when the store did not have the lease at its
      read, or when the lease it read had ended by its check. */
  lemma RegisterRefusalHasCause(s0: State, tr: seq<Step>, k: nat, t: Tid, r: RegisterEvent)
    requires Init(s0) && Feasible(s0, tr) && k < |tr| && tr[k] == OnRegister(t, r) && At(StateAt(s0, tr, k + 1), t, Hangup)
    ensures
      var s := StateAt(s0, tr, k);
      && t in s.pcs
      && (|| (r == RegGet && s.pcs[t].RegLocked? && s.pcs[t].id !in s.store)
          || (r == RegCheck && s.pcs[t].RegRead? && exists g, l :: RegReadAt(s0, tr, g, k, t, s.pcs[t].id, l) && l.expires <= s.now))
  {
    StateAtStep(s0, tr, k);
    RegHistoryRun(s0, tr, k, t);
  }

  /** StartForward refuses a client for good only when the store did not have the lease, when the
      lease it read had ended by its check, or when the client's registration is not the latest. */
  lemma StartRefusalHasCause(s0: State, tr: seq<Step>, k: nat, t: Tid, f: StartEvent, id: Id)
    requires Init(s0) && Feasible(s0, tr) && k < |tr| && tr[k] == OnStart(t, f) && At(StateAt(s0, tr, k + 1), t, Refused(id))
    ensures
      var s := StateAt(s0, tr, k);
      || (f == StGet && id !in s.store)
      || (f == StCheck && exists g :: ReadFor(s0, tr, g, k, t, id) && StateAt(s0, tr, g).store[id].expires <= s.now)
      || (f == StGone && !exists i :: LatestRegistration(tr[..k], id, t, i))
  {
    StateAtStep(s0, tr, k);
    var s := StateAt(s0, tr, k);
    if f == StCheck {
      WindowHasRead(s0, tr, k, t);
      var g :| ReadFor(s0, tr, g, k, t, s.pcs[t].id);
      CarriesRead(s0, tr, g, k, t, id);
    } else if f == StGone {
      FeasiblePrefix(s0, tr, k);
      LastWriterWins(s0, tr[..k], id, t);
    }
  }

  // ---------------------------------------------------------------- endings

  /** Closed connections stay closed, and a leaseState keeps its connection. */
  ghost predicate KeepsConns(s: State, s': State) {
    s.closedConns <= s'.closedConns && forall sid :: sid in s.states ==> sid in s'.states && s'.states[sid].conn == s.states[sid].conn
  }

  lemma RegisterKeepsConns(s: State, u: Tid, r: RegisterEvent)
    requires EnabledRegister(s, u, r)
    ensures KeepsConns(s, ApplyRegister(s, u, r)) && MovesOnly(s, ApplyRegister(s, u, r), u)
  {
  }

  lemma StartKeepsConns(s: State, u: Tid, f: StartEvent)
    requires EnabledStart(s, u, f)
    ensures KeepsConns(s, ApplyStart(s, u, f)) && MovesOnly(s, ApplyStart(s, u, f), u)
  {
  }

  lemma SessionKeepsConns(s: State, u: Tid, n: SessionEvent)
    requires EnabledSession(s, u, n)
    ensures KeepsConns(s, ApplySession(s, u, n)) && MovesOnly(s, ApplySession(s, u, n), u)
  {
  }

  lemma CloseKeepsConns(s: State, u: Tid, c: CloseEvent)
    requires EnabledClose(s, u, c)
    ensures KeepsConns(s, ApplyClose(s, u, c)) && MovesOnly(s, ApplyClose(s, u, c), u)
  {
  }

  lemma CoordinatorKeepsConns(s: State, u: Tid, d: CoordinatorEvent)
    requires EnabledCoordinator(s, u, d)
    ensures KeepsConns(s, ApplyCoordinator(s, u, d)) && MovesOnly(s, ApplyCoordinator(s, u, d), u)
  {
  }

  lemma StepKeepsConns(s: State, a: Step)
    requires Enabled(s, a)
    ensures KeepsConns(s, Apply(s, a)) && (if a.OnStore? then Apply(s, a).pcs == s.pcs else MovesOnly(s, Apply(s, a), a.t))
  {
    match a
    case OnStore(e) =>
    case OnRegister(u, r) => RegisterKeepsConns(s, u, r);
    case OnStart(u, f) => StartKeepsConns(s, u, f);
    case OnSession(u, n) => SessionKeepsConns(s, u, n);
    case OnClose(u, c) => CloseKeepsConns(s, u, c);
    case OnCoordinator(u, d) => CoordinatorKeepsConns(s, u, d);
  }

  /** t serves a connection; if it is done, or about to close the connection of a leaseState as
      its last act, the connection is closed, or is that one. */
  ghost predicate Serves(s: State, t: Tid) {
    t in s.pcs &&
    match s.pcs[t]
    case Closing(sid, _, k) => k.BackToServe? || (k.EndSession? && sid in s.states && s.states[sid].conn == t)
    case Done => t in s.closedConns
    case pc => !pc.Tear? && !pc.SwBegin? && !pc.SwLoop? && !pc.SwDone?
  }

  lemma ServesRegister(s: State, t: Tid, r: RegisterEvent)
    requires Serves(s, t) && EnabledRegister(s, t, r)
    ensures Serves(ApplyRegister(s, t, r), t)
  {
  }

  lemma ServesStart(s: State, t: Tid, f: StartEvent)
    requires Serves(s, t) && EnabledStart(s, t, f)
    ensures Serves(ApplyStart(s, t, f), t)
  {
  }

  lemma ServesSession(s: State, t: Tid, n: SessionEvent)
    requires Serves(s, t) && EnabledSession(s, t, n)
    ensures Serves(ApplySession(s, t, n), t)
  {
  }

  lemma ServesOwn(s: State, a: Step, t: Tid)
    requires Serves(s, t) && Enabled(s, a) && !a.OnStore? && a.t == t
    ensures Serves(Apply(s, a), t)
  {
    match a
    case OnRegister(_, r) => ServesRegister(s, t, r);
    case OnStart(_, f) => ServesStart(s, t, f);
    case OnSession(_, n) => ServesSession(s, t, n);
    case OnClose(_, c) =>
    case OnCoordinator(_, d) =>
  }

  lemma ServesStep(s: State, a: Step, t: Tid)
    requires Serves(s, t) && Enabled(s, a)
    ensures Serves(Apply(s, a), t)
  {
    if !a.OnStore? && a.t == t {
      ServesOwn(s, a, t);
    } else {
      StepKeepsConns(s, a);
    }
  }

  lemma {:induction false} ServesRun(s0: State, tr: seq<Step>, i: nat, k: nat, t: Tid, id: Id)
    requires Feasible(s0, tr) && i < k <= |tr| && tr[i] == OnRegister(t, Connect(id))
    ensures Serves(StateAt(s0, tr, k), t)
    decreases k
  {
    StateAtStep(s0, tr, k - 1);
    if i < k - 1 {
      ServesRun(s0, tr, i, k - 1, t, id);
      ServesStep(StateAt(s0, tr, k - 1), tr[k - 1], t);
    }
  }

  /** No goroutine that served a connection ends with the connection open. */
  lemma GoroutineEndsClosed(s0: State, tr: seq<Step>, i: nat, k: nat, t: Tid, id: Id)
    requires Feasible(s0, tr) && i < k <= |tr| && tr[i] == OnRegister(t, Connect(id)) && At(StateAt(s0, tr, k), t, Done)
    ensures t in StateAt(s0, tr, k).closedConns
  {
    ServesRun(s0, tr, i, k, t, id);
  }

  /** A client that StartForward has refused for good is disconnected before its goroutine does
      anything else. */
  lemma {:induction false} RefusalDisconnects(s0: State, tr: seq<Step>, i: nat, k: nat, t: Tid, id: Id)
    requires Feasible(s0, tr) && i <= k <= |tr| && At(StateAt(s0, tr, i), t, Refused(id))
    ensures At(StateAt(s0, tr, k), t, Refused(id)) || t in StateAt(s0, tr, k).closedConns
    decreases k
  {
    if i < k {
      RefusalDisconnects(s0, tr, i, k - 1, t, id);
      StateAtStep(s0, tr, k - 1);
      var s, a := StateAt(s0, tr, k - 1), tr[k - 1];
      StepKeepsConns(s, a);
      if !a.OnStore? && a.t == t && At(s, t, Refused(id)) {
        assert a == OnSession(t, CloseRefused);
      }
    }
  }
}

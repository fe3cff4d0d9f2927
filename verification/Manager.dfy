/** The forward manager as an object (`Manager` and `leaseState` in `sshd/forward.go`). Each
    method says outright what it does to the maps, and has an effect that `Protocol` reaches by
    steps of the calling thread alone, up to where the call returns; so its methods are the
    protocol's calls run without interference.
    `fwds` and `closedConns` stand for the sockets the methods open and close; what a method
    reads from the store and the clock, and what net.Listen answers, are arguments. */
module ManagerObject {
  import opened Wrappers
  import opened Protocol
  import opened ProtocolProofs

  // ---------------------------------------------------------------- effects of whole calls

  /** The listeners after closing f. */
  function Without(fwds: map<Fid, Forward>, f: Option<Fid>): map<Fid, Forward> {
    if f.Some? && f.value in fwds then fwds[f.value := fwds[f.value].(open := false)] else fwds
  }

  /** The listener f, if there is one, is closed; everything else about the listeners is as before. */
  ghost predicate Shuts(before: map<Fid, Forward>, after: map<Fid, Forward>, f: Option<Fid>) {
    && after.Keys == before.Keys
    && forall g :: g in before ==> after[g].port == before[g].port && (after[g].open <==> before[g].open && f != Some(g))
  }

  /** Closes the forward of an unlinked leaseState and then its connection. */
  function Shutdown(s: State, st: LeaseState): State {
    (if st.fwd.Some? then ShutForward(s, st.fwd.value) else s).(closedConns := s.closedConns + {st.conn})
  }

  predicate Alive(s: State, id: Id) {
    id in s.store && !Expired(s.store[id], s.now)
  }

  function RegisterEffect(s: State, t: Tid, id: Id, sid: Sid): State {
    if !Alive(s, id) then Goto(s, t, Hangup)
    else
      var s1 := Goto(s, t, Serve(id)).(table := s.table[id := sid], states := s.states[sid := LeaseState(t, None)]);
      if id in s.table && s.table[id] in s.states then
        Shutdown(s1, s.states[s.table[id]]).(closedConns := s.closedConns + ({s.states[s.table[id]].conn} - {t}))
      else s1
  }

  lemma RegisterParts(s: State, t: Tid, id: Id, sid: Sid)
    requires PointerInv(s) && Alive(s, id)
    ensures
      var e, linked := RegisterEffect(s, t, id, sid), id in s.table;
      && e.table == s.table[id := sid] && e.states == s.states[sid := LeaseState(t, None)]
      && e.fwds == Without(s.fwds, if linked then s.states[s.table[id]].fwd else None)
      && e.closedConns == s.closedConns + if linked then {s.states[s.table[id]].conn} - {t} else {}
  {
  }

  /** uint32 conversion. */
  function Wrap32(x: int): int {
    x % 0x1_0000_0000
  }

  /** A start answers with the lease's port and the port to echo to the client. */
  datatype StartReply = Started(port: int, echoed: int) | LeaseGone | DuplicateForward | BindFailed

  function StartOutcome(s: State, t: Tid, id: Id, requested: int, bound: Option<Fid>): StartReply {
    if !Alive(s, id) || !Registered(s, id, t) then LeaseGone
    else if s.states[s.table[id]].fwd.Some? then DuplicateForward
    else if bound.None? then BindFailed
    else Started(s.store[id].port, if requested == 0 then Wrap32(s.store[id].port) else requested)
  }

  function StartEffect(s: State, t: Tid, id: Id, bound: Option<Fid>): State {
    match StartOutcome(s, t, id, 0, bound)
    case LeaseGone => Goto(s, t, Refused(id))
    case Started(port, _) =>
      var sid := s.table[id];
      Goto(s, t, Serve(id)).(fwds := s.fwds[bound.value := Forward(port, true)], states := s.states[sid := LeaseState(t, bound)])
    case _ => Goto(s, t, Serve(id))
  }

  function TeardownEffect(s: State, t: Tid, id: Id, task: Task): State {
    var s1 := Goto(s, t, Resume(EndTear(task)));
    if id in s.table && s.table[id] in s.states then Shutdown(s1.(table := s.table - {id}), s.states[s.table[id]]) else s1
  }

  function CancelEffect(s: State, t: Tid, id: Id): State {
    var s1 := Goto(s, t, Serve(id));
    if Registered(s, id, t) && s.states[s.table[id]].fwd.Some? then
      var st := s.states[s.table[id]];
      ShutForward(s1, st.fwd.value).(states := s.states[s.table[id] := st.(fwd := None)])
    else s1
  }

  function ConnClosedEffect(s: State, t: Tid, id: Id): State {
    if !Registered(s, id, t) then Goto(s, t, Hangup)
    else
      var s1 := Goto(s, t, Closing(s.table[id], true, EndSession)).(table := s.table - {id});
      var f := s.states[s.table[id]].fwd;
      if f.Some? then ShutForward(s1, f.value) else s1
  }

  // ---------------------------------------------------------------- effects are runs

  ghost predicate TakenBy(a: Step, t: Tid) {
    !a.OnStore? && a.t == t
  }

  /** Thread t alone takes s to s'. */
  ghost predicate Alone(s: State, s': State, t: Tid) {
    exists tr :: Feasible(s, tr) && Exec(s, tr) == s' && forall a :: a in tr ==> TakenBy(a, t)
  }

  lemma AloneStart(s: State, t: Tid)
    ensures Alone(s, s, t)
  {
    assert Feasible(s, []) && Exec(s, []) == s;
  }

  lemma AloneStep(s0: State, s: State, a: Step, t: Tid)
    requires Alone(s0, s, t) && Enabled(s, a) && TakenBy(a, t)
    ensures Alone(s0, Apply(s, a), t)
  {
    var tr :| Feasible(s0, tr) && Exec(s0, tr) == s && forall a :: a in tr ==> TakenBy(a, t);
    var tr' := tr + [a];
    assert tr'[..|tr|] == tr && tr'[|tr'| - 1] == a;
    assert Feasible(s0, tr') && Exec(s0, tr') == Apply(s, a);
  }

  lemma AloneClose(s0: State, s: State, t: Tid, k: Cont)
    requires Alone(s0, s, t) && t in s.pcs && s.pcs[t].Closing? && !s.pcs[t].fwdDone && s.pcs[t].k == k && s.pcs[t].sid in s.states
    ensures Alone(s0, Goto(Shutdown(s, s.states[s.pcs[t].sid]), t, Resume(k)), t)
  {
    AloneStep(s0, s, OnClose(t, CloseFwd), t);
    var s1 := ApplyClose(s, t, CloseFwd);
    AloneStep(s0, s1, OnClose(t, CloseConn), t);
    assert ApplyClose(s1, t, CloseConn) == Goto(Shutdown(s, s.states[s.pcs[t].sid]), t, Resume(k));
  }

  lemma AloneRegister(s0: State, s: State, t: Tid, r: RegisterEvent)
    requires Alone(s0, s, t) && EnabledRegister(s, t, r)
    ensures Alone(s0, ApplyRegister(s, t, r), t)
  {
    AloneStep(s0, s, OnRegister(t, r), t);
  }

  lemma RegisterChecks(s: State, t: Tid, id: Id)
    requires At(s, t, Dial(id)) && s.mu.None?
    ensures Alone(s, if Alive(s, id) then Lock(s, t, RegOk(id)) else Goto(s, t, Hangup), t)
  {
    AloneStart(s, t);
    AloneRegister(s, s, t, RegLock);
    var s1 := Lock(s, t, RegLocked(id));
    AloneRegister(s, s1, t, RegGet);
    if id in s.store {
      var s2 := Lock(s, t, RegRead(id, s.store[id]));
      assert ApplyRegister(s1, t, RegGet) == s2;
      AloneRegister(s, s2, t, RegCheck);
      assert ApplyRegister(s2, t, RegCheck) == if Alive(s, id) then Lock(s, t, RegOk(id)) else Goto(s, t, Hangup);
    } else {
      assert ApplyRegister(s1, t, RegGet) == Goto(s, t, Hangup);
    }
  }

  lemma RegisterIsRun(s: State, t: Tid, id: Id, sid: Sid)
    requires PointerInv(s) && At(s, t, Dial(id)) && s.mu.None? && sid !in s.states && !Registered(s, id, t)
    ensures Alone(s, RegisterEffect(s, t, id, sid), t)
    ensures At(RegisterEffect(s, t, id, sid), t, if id in s.store && s.now < s.store[id].expires then Serve(id) else Hangup)
  {
    RegisterChecks(s, t, id);
    if Alive(s, id) {
      var s1 := Lock(s, t, RegOk(id));
      AloneRegister(s, s1, t, RegInstall(id, sid));
      var s2 := ApplyRegister(s1, t, RegInstall(id, sid));
      if id in s.table {
        AloneClose(s, s2, t, BackToServe(id));
        assert Goto(Shutdown(s2, s2.states[s2.pcs[t].sid]), t, Serve(id)) == RegisterEffect(s, t, id, sid);
      } else {
        assert s2 == RegisterEffect(s, t, id, sid);
      }
    }
  }

  lemma AloneStartEvent(s0: State, s: State, t: Tid, f: StartEvent)
    requires Alone(s0, s, t) && EnabledStart(s, t, f)
    ensures Alone(s0, ApplyStart(s, t, f), t)
  {
    AloneStep(s0, s, OnStart(t, f), t);
  }

  lemma StartChecks(s: State, t: Tid, id: Id)
    requires At(s, t, Serve(id)) && s.mu.None?
    ensures Alone(s, if Alive(s, id) then Lock(s, t, StOk(id, s.store[id])) else Goto(s, t, Refused(id)), t)
  {
    AloneStart(s, t);
    AloneStartEvent(s, s, t, StLock);
    var s1 := Lock(s, t, StLocked(id));
    AloneStartEvent(s, s1, t, StGet);
    if id in s.store {
      var s2 := Lock(s, t, StRead(id, s.store[id]));
      assert ApplyStart(s1, t, StGet) == s2;
      AloneStartEvent(s, s2, t, StCheck);
      assert ApplyStart(s2, t, StCheck) == if Alive(s, id) then Lock(s, t, StOk(id, s.store[id])) else Goto(s, t, Refused(id));
    } else {
      assert ApplyStart(s1, t, StGet) == Goto(s, t, Refused(id));
    }
  }

  /** net.Listen hands out a new listener, and not on a port that another one is bound to. */
  ghost predicate CanBind(s: State, id: Id, bound: Option<Fid>) {
    bound.Some? && id in s.store ==>
      bound.value !in s.fwds && forall g :: g in s.fwds && s.fwds[g].open ==> s.fwds[g].port != s.store[id].port
  }

  lemma StartInstalls(s: State, t: Tid, id: Id, f: Fid)
    requires Alive(s, id) && Registered(s, id, t) && s.states[s.table[id]].fwd.None? && CanBind(s, id, Some(f)) && s.mu.None?
    requires Alone(s, Lock(s, t, StOk(id, s.store[id])), t)
    ensures Alone(s, StartEffect(s, t, id, Some(f)), t)
  {
    var s1 := Lock(s, t, StOk(id, s.store[id]));
    AloneStartEvent(s, s1, t, StListen(f));
    var s2 := ApplyStart(s1, t, StListen(f));
    AloneStartEvent(s, s2, t, StInstall);
    assert ApplyStart(s2, t, StInstall) == StartEffect(s, t, id, Some(f));
  }

  lemma StartIsRun(s: State, t: Tid, id: Id, bound: Option<Fid>)
    requires At(s, t, Serve(id)) && s.mu.None? && CanBind(s, id, bound)
    ensures Alone(s, StartEffect(s, t, id, bound), t)
    ensures At(StartEffect(s, t, id, bound), t,
      if id in s.store && s.now < s.store[id].expires && Registered(s, id, t) then Serve(id) else Refused(id))
  {
    StartChecks(s, t, id);
    if Alive(s, id) {
      var s1 := Lock(s, t, StOk(id, s.store[id]));
      match StartOutcome(s, t, id, 0, bound)
      case LeaseGone => AloneStartEvent(s, s1, t, StGone);
      case DuplicateForward => AloneStartEvent(s, s1, t, StDuplicate);
      case BindFailed => AloneStartEvent(s, s1, t, StListenFails);
      case Started(_, _) => StartInstalls(s, t, id, bound.value);
    }
  }

  lemma TeardownIsRun(s: State, t: Tid, id: Id, task: Task)
    requires PointerInv(s) && At(s, t, Tear(id, task)) && s.mu.None?
    ensures Alone(s, TeardownEffect(s, t, id, task), t)
    ensures At(TeardownEffect(s, t, id, task), t, if task.RevokeTask? then Done else SwLoop(task.cutoff, task.todo))
  {
    AloneStart(s, t);
    AloneStep(s, s, OnCoordinator(t, TearCut(id)), t);
    var s1 := ApplyCoordinator(s, t, TearCut(id));
    if id in s.table {
      AloneClose(s, s1, t, EndTear(task));
      assert Goto(Shutdown(s1, s1.states[s1.pcs[t].sid]), t, Resume(EndTear(task))) == TeardownEffect(s, t, id, task);
    }
  }

  lemma CancelIsRun(s: State, t: Tid, id: Id)
    requires At(s, t, Serve(id)) && s.mu.None?
    ensures Alone(s, CancelEffect(s, t, id), t) && At(CancelEffect(s, t, id), t, Serve(id))
  {
    AloneStart(s, t);
    AloneStep(s, s, OnSession(t, Cancel(id)), t);
    var s1 := ApplySession(s, t, Cancel(id));
    if Registered(s, id, t) && s.states[s.table[id]].fwd.Some? {
      AloneStep(s, s1, OnSession(t, CancelClose), t);
      assert ApplySession(s1, t, CancelClose) == CancelEffect(s, t, id);
    }
  }

  lemma ConnClosedStep(s: State, t: Tid, id: Id)
    requires At(s, t, Leaving(id)) && s.mu.None? && Registered(s, id, t)
    ensures ApplySession(s, t, ConnClosed(id)) == Goto(s, t, Closing(s.table[id], false, EndSession)).(table := s.table - {id})
    ensures ApplyClose(ApplySession(s, t, ConnClosed(id)), t, CloseFwd) == ConnClosedEffect(s, t, id)
  {
  }

  lemma ConnClosedIsRun(s: State, t: Tid, id: Id)
    requires At(s, t, Leaving(id)) && s.mu.None?
    ensures Alone(s, ConnClosedEffect(s, t, id), t)
    ensures At(ConnClosedEffect(s, t, id), t, if Registered(s, id, t) then Closing(s.table[id], true, EndSession) else Hangup)
  {
    AloneStart(s, t);
    AloneStep(s, s, OnSession(t, ConnClosed(id)), t);
    var s1 := ApplySession(s, t, ConnClosed(id));
    if Registered(s, id, t) {
      ConnClosedStep(s, t, id);
      AloneStep(s, s1, OnClose(t, CloseFwd), t);
    }
  }

  // ---------------------------------------------------------------- a connection registers once

  /** The goroutine has not installed a leaseState yet. */
  predicate Unregistered(pc: PC) {
    pc.Dial? || pc.RegLocked? || pc.RegRead? || pc.RegOk?
  }

  ghost predicate OnceInv(s: State) {
    forall sid :: sid in s.states ==> s.states[sid].conn in s.pcs && !Unregistered(s.pcs[s.states[sid].conn])
  }

  lemma OnceRegister(s: State, t: Tid, r: RegisterEvent)
    requires OnceInv(s) && EnabledRegister(s, t, r)
    ensures OnceInv(ApplyRegister(s, t, r))
  {
  }

  lemma OnceStart(s: State, t: Tid, f: StartEvent)
    requires OnceInv(s) && EnabledStart(s, t, f)
    ensures OnceInv(ApplyStart(s, t, f))
  {
  }

  lemma OnceSession(s: State, t: Tid, n: SessionEvent)
    requires OnceInv(s) && EnabledSession(s, t, n)
    ensures OnceInv(ApplySession(s, t, n))
  {
  }

  lemma OnceCoordinator(s: State, t: Tid, d: CoordinatorEvent)
    requires OnceInv(s) && EnabledCoordinator(s, t, d)
    ensures OnceInv(ApplyCoordinator(s, t, d))
  {
    CoordinatorFrame(s, t, d);
  }

  lemma OnceStep(s: State, a: Step)
    requires OnceInv(s) && Enabled(s, a)
    ensures OnceInv(Apply(s, a))
  {
    match a
    case OnStore(e) =>
    case OnRegister(t, r) => OnceRegister(s, t, r);
    case OnStart(t, f) => OnceStart(s, t, f);
    case OnSession(t, n) => OnceSession(s, t, n);
    case OnClose(t, c) =>
    case OnCoordinator(t, d) => OnceCoordinator(s, t, d);
  }

  lemma {:induction false} RunKeepsOnce(s0: State, tr: seq<Step>)
    requires Init(s0) && Feasible(s0, tr)
    ensures OnceInv(Exec(s0, tr))
  {
    if tr != [] {
      RunKeepsOnce(s0, tr[..|tr| - 1]);
      OnceStep(Exec(s0, tr[..|tr| - 1]), tr[|tr| - 1]);
    }
  }

  /** A connection that is about to register owns no leaseState, so the check that RegisterConn
      does not close its own connection never fails. */
  lemma TakeoverClosesAnother(s0: State, tr: seq<Step>, id: Id, t: Tid)
    requires Init(s0) && Feasible(s0, tr)
    requires t in Exec(s0, tr).pcs && Unregistered(Exec(s0, tr).pcs[t])
    ensures !Registered(Exec(s0, tr), id, t)
  {
    RunKeepsOnce(s0, tr);
  }

  // ---------------------------------------------------------------- the object

  class LeaseEntry {
    const sid: Sid
    const conn: Tid
    var forward: Option<Fid>

    constructor (sid: Sid, conn: Tid)
      ensures this.sid == sid && Value() == LeaseState(conn, None)
    {
      this.sid, this.conn, forward := sid, conn, None;
    }

    function Value(): LeaseState
      reads this
    {
      LeaseState(conn, forward)
    }
  }

  class Manager {
    var leases: map<Id, LeaseEntry>
    var fwds: map<Fid, Forward>
    var closedConns: set<Tid>

    /** s is a protocol state whose manager part is this object. */
    ghost predicate Represents(s: State)
      reads this, leases.Values
    {
      && fwds == s.fwds && closedConns == s.closedConns
      && (forall id :: id in leases <==> id in s.table)
      && (forall id :: id in leases ==> leases[id].sid == s.table[id])
      && (forall id :: id in leases ==> s.table[id] in s.states && s.states[s.table[id]] == leases[id].Value())
    }

    constructor ()
      ensures leases == map[] && fwds == map[] && closedConns == {}
    {
      leases, fwds, closedConns := map[], map[], {};
    }

    method CloseForward(f: Option<Fid>)
      modifies this`fwds
      ensures fwds == Without(old(fwds), f) && Shuts(old(fwds), fwds, f)
    {
      if f.Some? && f.value in fwds {
        fwds := fwds[f.value := fwds[f.value].(open := false)];
      }
    }

    /** Puts a new entry in place of the prior one and closes what that had. */
    method TakeOver(id: Id, sid: Sid, conn: Tid)
      modifies this
      ensures leases.Keys == old(leases).Keys + {id} && (forall j :: j in old(leases) && j != id ==> leases[j] == old(leases)[j])
      ensures fresh(leases[id]) && leases[id].sid == sid && leases[id].Value() == LeaseState(conn, None)
      ensures
        var f := if id in old(leases) then old(leases[id].forward) else None;
        fwds == Without(old(fwds), f) && Shuts(old(fwds), fwds, f)
      ensures closedConns == old(closedConns) + if id in old(leases) then {old(leases)[id].conn} - {conn} else {}
    {
      var entry := new LeaseEntry(sid, conn);
      if id in leases {
        var prior := leases[id];
        leases := leases[id := entry];
        CloseForward(prior.forward);
        if prior.conn != conn {
          closedConns := closedConns + {prior.conn};
        }
      } else {
        leases := leases[id := entry];
      }
    }

    lemma RepresentsTakenOver(s: State, e: State, before: map<Id, LeaseEntry>, id: Id)
      requires fwds == e.fwds && closedConns == e.closedConns
      requires leases.Keys == before.Keys + {id} && before.Keys == s.table.Keys
      requires forall j :: j in before && j != id ==> leases[j] == before[j] && leases[j].sid == s.table[j]
      requires forall j :: j in before && j != id ==> s.table[j] in s.states && s.states[s.table[j]] == leases[j].Value()
      requires leases[id].sid !in s.states
      requires e.table == s.table[id := leases[id].sid] && e.states == s.states[leases[id].sid := leases[id].Value()]
      ensures Represents(e)
    {
    }

    /** Refuses exactly a lease that is unknown or has ended. Otherwise the id gets a new entry for
        the connection, and the forward and the connection of the one it had, unless that is the
        same connection, are closed. */
    method RegisterConn(conn: Tid, id: Id, store: map<Id, Lease>, now: int, sid: Sid, ghost s: State) returns (ok: bool)
      requires Represents(s) && PointerInv(s) && store == s.store && now == s.now && sid !in s.states
      modifies this
      ensures Represents(RegisterEffect(s, conn, id, sid))
      ensures ok <==> id in store && now < store[id].expires
      ensures !ok ==> unchanged(this)
      ensures ok ==>
        && leases.Keys == old(leases).Keys + {id} && (forall j :: j in old(leases) && j != id ==> leases[j] == old(leases)[j])
        && leases[id].conn == conn && leases[id].forward == None
        && Shuts(old(fwds), fwds, if id in old(leases) then old(leases[id].forward) else None)
        && closedConns == old(closedConns) + if id in old(leases) then {old(leases)[id].conn} - {conn} else {}
    {
      if id !in store || Expired(store[id], now) {
        return false;
      }
      TakeOver(id, sid, conn);
      RegisterParts(s, conn, id, sid);
      RepresentsTakenOver(s, RegisterEffect(s, conn, id, sid), old(leases), id);
      return true;
    }

    /** Puts a bound listener up as the forward of the entry. */
    method Install(id: Id, f: Fid, port: int, ghost s: State)
      requires Represents(s) && PointerInv(s) && id in leases
      modifies this`fwds, leases[id]
      ensures Represents(s.(fwds := s.fwds[f := Forward(port, true)],
                            states := s.states[s.table[id] := LeaseState(leases[id].conn, Some(f))]))
      ensures fwds == old(fwds)[f := Forward(port, true)] && leases[id].forward == Some(f)
      ensures forall j :: j in leases && j != id ==> leases[j] != leases[id]
    {
      fwds := fwds[f := Forward(port, true)];
      leases[id].forward := Some(f);
    }

    /** The four outcomes, in the order they are checked; only a start changes anything, and that
        only puts a listener on the lease's port up as the forward of the caller's entry. */
    method StartForward(conn: Tid, id: Id, requested: int, store: map<Id, Lease>, now: int, bound: Option<Fid>, ghost s: State)
      returns (r: StartReply)
      requires Represents(s) && PointerInv(s) && store == s.store && now == s.now
      modifies this`fwds, leases.Values
      ensures Represents(StartEffect(s, conn, id, bound))
      ensures r == StartOutcome(s, conn, id, requested, bound)
      ensures r.LeaseGone? <==> id !in store || store[id].expires <= now || id !in leases || leases[id].conn != conn
      ensures !r.LeaseGone? ==>
        && (r.DuplicateForward? <==> old(leases[id].forward).Some?)
        && (r.BindFailed? <==> old(leases[id].forward).None? && bound.None?)
      ensures r.Started? ==>
        && bound.Some? && fwds == old(fwds)[bound.value := Forward(store[id].port, true)] && leases[id].forward == bound
        && r.port == store[id].port && r.echoed == if requested == 0 then store[id].port % 0x1_0000_0000 else requested
      ensures !r.Started? ==> fwds == old(fwds)
      ensures forall j :: j in leases && (j != id || !r.Started?) ==> leases[j].forward == old(leases[j].forward)
    {
      if id !in store || Expired(store[id], now) {
        return LeaseGone;
      }
      if id !in leases || leases[id].conn != conn {
        return LeaseGone;
      }
      if leases[id].forward.Some? {
        return DuplicateForward;
      }
      if bound.None? {
        return BindFailed;
      }
      var port := store[id].port;
      Install(id, bound.value, port, s);
      var echoed := requested;
      if requested == 0 {
        echoed := Wrap32(port);
      }
      return Started(port, echoed);
    }

    /** Forgets the id, and closes its forward and its connection and no other. */
    method Teardown(id: Id, ghost s: State, ghost t: Tid, ghost task: Task)
      requires Represents(s) && PointerInv(s)
      modifies this
      ensures Represents(TeardownEffect(s, t, id, task))
      ensures leases == old(leases) - {id}
      ensures Shuts(old(fwds), fwds, if id in old(leases) then old(leases[id].forward) else None)
      ensures closedConns == old(closedConns) + if id in old(leases) then {old(leases)[id].conn} else {}
    {
      if id in leases {
        var st := leases[id];
        leases := leases - {id};
        CloseForward(st.forward);
        closedConns := closedConns + {st.conn};
      }
    }

    /** Closes and detaches the forward of the caller's own entry, which stays. */
    method CancelForward(id: Id, conn: Tid, ghost s: State)
      requires Represents(s) && PointerInv(s)
      modifies this`fwds, leases.Values
      ensures Represents(CancelEffect(s, conn, id))
      ensures
        var own := id in leases && leases[id].conn == conn;
        && Shuts(old(fwds), fwds, if own then old(leases[id].forward) else None)
        && (own ==> leases[id].forward == None)
        && forall j :: j in leases && (j != id || !own) ==> leases[j].forward == old(leases[j].forward)
    {
      if id in leases && leases[id].conn == conn && leases[id].forward.Some? {
        assert forall j :: j in leases && j != id ==> leases[j] != leases[id];
        var f := leases[id].forward;
        leases[id].forward := None;
        CloseForward(f);
      }
    }

    /** Forgets the caller's own entry and closes its forward; the caller closes the connection
        itself afterwards. */
    method OnConnClosed(id: Id, conn: Tid, ghost s: State)
      requires Represents(s) && PointerInv(s)
      modifies this
      ensures Represents(ConnClosedEffect(s, conn, id))
      ensures
        var own := id in old(leases) && old(leases)[id].conn == conn;
        && leases == (if own then old(leases) - {id} else old(leases)) && closedConns == old(closedConns)
        && Shuts(old(fwds), fwds, if own then old(leases[id].forward) else None)
    {
      if id in leases && leases[id].conn == conn {
        var st := leases[id];
        leases := leases - {id};
        CloseForward(st.forward);
      }
    }
  }
}

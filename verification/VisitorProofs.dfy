/** Every step of `Visitors` keeps its invariant, and what follows over whole runs. */
module VisitorProofs {
  import opened Wrappers
  import opened Visitors

  // ---------------------------------------------------------------- frames

  /** What a handler step may touch: its own program point, its own row in its forward's
      visitor map, its own socket and channel, and one counter. */
  ghost predicate OwnRowOnly(s: State, s': State, h: Hid)
    requires h in s.handlers && s.handlers[h].f in s.fwds
  {
    var f := s.handlers[h].f;
    && h in s'.handlers && s'.handlers == s.handlers[h := Handler(f, s'.handlers[h].pc)]
    && f in s'.fwds && s'.fwds == s.fwds[f := s.fwds[f].(visitors := s'.fwds[f].visitors)]
    && (forall x :: x != h ==> (x in s'.fwds[f].visitors <==> x in s.fwds[f].visitors))
    && (forall x :: x != h && x in s.fwds[f].visitors ==> s'.fwds[f].visitors[x] == s.fwds[f].visitors[x])
    && s'.max == s.max && s.closedSocks <= s'.closedSocks && s.closedChans <= s'.closedChans
  }

  lemma HandlerFrame(s: State, h: Hid, e: HandlerEvent)
    requires EnabledHandler(s, h, e)
    ensures OwnRowOnly(s, ApplyHandler(s, h, e), h)
  {
  }

  function SlotsOf(pc: PC): int {
    if HoldsSlot(pc) then 1 else 0
  }

  /** The counter moves by exactly the slots the handler gains or gives up. */
  lemma CounterFrame(s: State, h: Hid, e: HandlerEvent)
    requires TypeInv(s) && EnabledHandler(s, h, e)
    ensures
      var s' := ApplyHandler(s, h, e);
      var mine := s.fwds[s.handlers[h].f].owner;
      var gained := SlotsOf(s'.handlers[h].pc) - SlotsOf(s.handlers[h].pc);
      && s'.counters == s.counters[mine := s.counters[mine] + gained]
      && (gained > 0 ==> s.counters[mine] < s.max)
  {
  }

  // ---------------------------------------------------------------- slots

  lemma SlotHandler(s: State, h: Hid, e: HandlerEvent)
    requires TypeInv(s) && SlotInv(s) && EnabledHandler(s, h, e)
    ensures SlotInv(ApplyHandler(s, h, e))
  {
    var s' := ApplyHandler(s, h, e);
    HandlerFrame(s, h, e);
    CounterFrame(s, h, e);
    SlotFrame(s, s', h);
  }

  lemma HoldersFrame(s: State, s': State, h: Hid, sid: Sid)
    requires TypeInv(s) && h in s.handlers && OwnRowOnly(s, s', h)
    ensures |Holders(s', sid)| == |Holders(s, sid)| + (
      if sid == s.fwds[s.handlers[h].f].owner then SlotsOf(s'.handlers[h].pc) - SlotsOf(s.handlers[h].pc) else 0)
  {
    assert Holders(s, sid) - {h} == Holders(s', sid) - {h};
    DifferByOne(Holders(s, sid), Holders(s', sid), h);
  }

  lemma SlotFrame(s: State, s': State, h: Hid)
    requires TypeInv(s) && SlotInv(s) && h in s.handlers && OwnRowOnly(s, s', h)
    requires
      var mine := s.fwds[s.handlers[h].f].owner;
      var gained := SlotsOf(s'.handlers[h].pc) - SlotsOf(s.handlers[h].pc);
      && s'.counters == s.counters[mine := s.counters[mine] + gained]
      && (gained > 0 ==> s.counters[mine] < s.max)
    ensures SlotInv(s')
  {
    var mine := s.fwds[s.handlers[h].f].owner;
    forall sid | sid in s'.counters ensures s'.counters[sid] == |Holders(s', sid)| <= s'.max {
      assert s.counters[sid] == |Holders(s, sid)|;
      HoldersFrame(s, s', h, sid);
    }
  }

  lemma SlotClose(s: State, f: Fid, c: CloseEvent)
    requires TypeInv(s) && SlotInv(s) && EnabledClose(s, f, c)
    ensures SlotInv(ApplyClose(s, f, c))
  {
    var s' := ApplyClose(s, f, c);
    forall sid | sid in s'.counters ensures s'.counters[sid] == |Holders(s', sid)| <= s'.max {
      assert s.counters[sid] == |Holders(s, sid)|;
      assert Holders(s', sid) == Holders(s, sid);
    }
  }

  // ---------------------------------------------------------------- tracking

  lemma OwnReach(s: State, h: Hid, e: HandlerEvent)
    requires TypeInv(s) && TrackInv(s) && EnabledHandler(s, h, e)
    ensures
      var s', f := ApplyHandler(s, h, e), s.handlers[h].f;
      h in s'.handlers && f in s'.fwds && Reached(s'.fwds[f], h, s'.handlers[h].pc, s'.closedSocks, s'.closedChans)
  {
    assert Reached(s.fwds[s.handlers[h].f], h, s.handlers[h].pc, s.closedSocks, s.closedChans);
  }

  lemma OwnRowKept(s: State, h: Hid, e: HandlerEvent)
    requires TypeInv(s) && TrackInv(s) && EnabledHandler(s, h, e)
    ensures
      var s' := ApplyHandler(s, h, e);
      var f := s.handlers[h].f;
      && Reached(s'.fwds[f], h, s'.handlers[h].pc, s'.closedSocks, s'.closedChans)
      && (h in s'.fwds[f].visitors ==> IsTracked(s'.handlers[h].pc))
      && (s'.fwds[f].phase.Draining? && h in s'.fwds[f].phase.todo ==> h in s'.fwds[f].visitors)
      && (s'.handlers[h].pc.Finished? ==> h in s'.closedSocks)
  {
    OwnReach(s, h, e);
  }

  lemma TrackHandler(s: State, h: Hid, e: HandlerEvent)
    requires TypeInv(s) && TrackInv(s) && EnabledHandler(s, h, e)
    ensures TrackInv(ApplyHandler(s, h, e))
  {
    HandlerFrame(s, h, e);
    OwnRowKept(s, h, e);
    TrackFrame(s, ApplyHandler(s, h, e), h);
  }

  lemma TrackFrame(s: State, s': State, h: Hid)
    requires TypeInv(s) && TrackInv(s) && h in s.handlers && OwnRowOnly(s, s', h)
    requires
      var f := s.handlers[h].f;
      && Reached(s'.fwds[f], h, s'.handlers[h].pc, s'.closedSocks, s'.closedChans)
      && (h in s'.fwds[f].visitors ==> IsTracked(s'.handlers[h].pc))
      && (s'.fwds[f].phase.Draining? && h in s'.fwds[f].phase.todo ==> h in s'.fwds[f].visitors)
      && (s'.handlers[h].pc.Finished? ==> h in s'.closedSocks)
    ensures TrackInv(s')
  {
    forall x | x in s'.handlers && s'.handlers[x].f in s'.fwds
      ensures Reached(s'.fwds[s'.handlers[x].f], x, s'.handlers[x].pc, s'.closedSocks, s'.closedChans)
    {
      assert x != h ==> Reached(s.fwds[s.handlers[x].f], x, s.handlers[x].pc, s.closedSocks, s.closedChans);
    }
  }

  lemma TrackDrain(s: State, f: Fid, h: Hid)
    requires TypeInv(s) && TrackInv(s) && EnabledClose(s, f, Drain(h))
    ensures TrackInv(ApplyClose(s, f, Drain(h)))
  {
    var s' := ApplyClose(s, f, Drain(h));
    forall x | x in s'.handlers && s'.handlers[x].f in s'.fwds
      ensures Reached(s'.fwds[s'.handlers[x].f], x, s'.handlers[x].pc, s'.closedSocks, s'.closedChans)
    {
      assert Reached(s.fwds[s.handlers[x].f], x, s.handlers[x].pc, s.closedSocks, s.closedChans);
    }
  }

  lemma TrackLock(s: State, f: Fid)
    requires TypeInv(s) && TrackInv(s) && EnabledClose(s, f, LockVisitors)
    ensures TrackInv(ApplyClose(s, f, LockVisitors))
  {
    var s' := ApplyClose(s, f, LockVisitors);
    forall x | x in s'.handlers && s'.handlers[x].f in s'.fwds
      ensures Reached(s'.fwds[s'.handlers[x].f], x, s'.handlers[x].pc, s'.closedSocks, s'.closedChans)
    {
      assert Reached(s.fwds[s.handlers[x].f], x, s.handlers[x].pc, s.closedSocks, s.closedChans);
    }
  }

  lemma TrackDeaf(s: State, f: Fid)
    requires TypeInv(s) && TrackInv(s) && EnabledClose(s, f, StopListening)
    ensures TrackInv(ApplyClose(s, f, StopListening))
  {
    var s' := ApplyClose(s, f, StopListening);
    forall x | x in s'.handlers && s'.handlers[x].f in s'.fwds
      ensures Reached(s'.fwds[s'.handlers[x].f], x, s'.handlers[x].pc, s'.closedSocks, s'.closedChans)
    {
      assert Reached(s.fwds[s.handlers[x].f], x, s.handlers[x].pc, s.closedSocks, s.closedChans);
    }
  }

  lemma DropReach(s: State, f: Fid, x: Hid)
    requires TrackInv(s) && EnabledClose(s, f, DropVisitors) && x in s.handlers && s.handlers[x].f in s.fwds
    ensures
      var s' := ApplyClose(s, f, DropVisitors);
      Reached(s'.fwds[s.handlers[x].f], x, s.handlers[x].pc, s'.closedSocks, s'.closedChans)
  {
    assert Reached(s.fwds[s.handlers[x].f], x, s.handlers[x].pc, s.closedSocks, s.closedChans);
  }

  lemma TrackDrop(s: State, f: Fid)
    requires TypeInv(s) && TrackInv(s) && EnabledClose(s, f, DropVisitors)
    ensures TrackInv(ApplyClose(s, f, DropVisitors))
  {
    var s' := ApplyClose(s, f, DropVisitors);
    forall x | x in s'.handlers && s'.handlers[x].f in s'.fwds
      ensures Reached(s'.fwds[s'.handlers[x].f], x, s'.handlers[x].pc, s'.closedSocks, s'.closedChans)
    {
      DropReach(s, f, x);
    }
  }

  lemma TrackClose(s: State, f: Fid, c: CloseEvent)
    requires TypeInv(s) && TrackInv(s) && EnabledClose(s, f, c)
    ensures TrackInv(ApplyClose(s, f, c))
  {
    match c
    case StopListening => TrackDeaf(s, f);
    case LockVisitors => TrackLock(s, f);
    case Drain(h) => TrackDrain(s, f, h);
    case DropVisitors => TrackDrop(s, f);
  }

  // ---------------------------------------------------------------- every step

  /** Steps that add a leaseState, a forward or a handler, or close a connection. */
  predicate Arrival(a: Step) {
    !a.Handle? && !a.CloseStep?
  }

  lemma SlotArrival(s: State, a: Step)
    requires TypeInv(s) && SlotInv(s) && Enabled(s, a) && Arrival(a)
    ensures SlotInv(Apply(s, a))
  {
    var s' := Apply(s, a);
    forall sid | sid in s'.counters ensures s'.counters[sid] == |Holders(s', sid)| <= s'.max {
      if sid in s.counters {
        assert s.counters[sid] == |Holders(s, sid)|;
        assert Holders(s', sid) == Holders(s, sid);
      } else {
        assert Holders(s', sid) == {};
      }
    }
  }

  lemma TypeArrival(s: State, a: Step)
    requires TypeInv(s) && ChannelInv(s) && Enabled(s, a) && Arrival(a)
    ensures TypeInv(Apply(s, a)) && ChannelInv(Apply(s, a))
  {
  }

  lemma TrackNewForward(s: State, f: Fid, sid: Sid)
    requires TypeInv(s) && TrackInv(s) && Enabled(s, NewForward(f, sid))
    ensures TrackInv(Apply(s, NewForward(f, sid)))
  {
    var s' := Apply(s, NewForward(f, sid));
    forall x | x in s'.handlers
      ensures Reached(s'.fwds[s'.handlers[x].f], x, s'.handlers[x].pc, s'.closedSocks, s'.closedChans)
    {
      assert Reached(s.fwds[s.handlers[x].f], x, s.handlers[x].pc, s.closedSocks, s.closedChans);
    }
  }

  lemma TrackAccept(s: State, h: Hid, f: Fid)
    requires TypeInv(s) && TrackInv(s) && Enabled(s, Accept(h, f))
    ensures TrackInv(Apply(s, Accept(h, f)))
  {
    var s' := Apply(s, Accept(h, f));
    forall x | x in s'.handlers
      ensures Reached(s'.fwds[s'.handlers[x].f], x, s'.handlers[x].pc, s'.closedSocks, s'.closedChans)
    {
      assert x != h ==> Reached(s.fwds[s.handlers[x].f], x, s.handlers[x].pc, s.closedSocks, s.closedChans);
    }
  }

  lemma TrackElsewhere(s: State, s': State)
    requires TrackInv(s) && s' == s.(counters := s'.counters, closedConns := s'.closedConns)
    ensures TrackInv(s')
  {
    forall x | x in s'.handlers && s'.handlers[x].f in s'.fwds
      ensures Reached(s'.fwds[s'.handlers[x].f], x, s'.handlers[x].pc, s'.closedSocks, s'.closedChans)
    {
      assert Reached(s.fwds[s.handlers[x].f], x, s.handlers[x].pc, s.closedSocks, s.closedChans);
    }
  }

  lemma KeptArrival(s: State, a: Step)
    requires Inv(s) && Enabled(s, a) && Arrival(a)
    ensures Inv(Apply(s, a))
  {
    TypeArrival(s, a);
    SlotArrival(s, a);
    if a.NewForward? {
      TrackNewForward(s, a.f, a.sid);
    } else if a.Accept? {
      TrackAccept(s, a.h, a.f);
    } else {
      TrackElsewhere(s, Apply(s, a));
    }
  }

  lemma TypeHandler(s: State, h: Hid, e: HandlerEvent)
    requires TypeInv(s) && EnabledHandler(s, h, e)
    ensures TypeInv(ApplyHandler(s, h, e))
  {
  }

  lemma ChannelHandler(s: State, h: Hid, e: HandlerEvent)
    requires ChannelInv(s) && EnabledHandler(s, h, e)
    ensures ChannelInv(ApplyHandler(s, h, e))
  {
  }

  lemma KeptHandler(s: State, h: Hid, e: HandlerEvent)
    requires Inv(s) && EnabledHandler(s, h, e)
    ensures Inv(ApplyHandler(s, h, e))
  {
    TypeHandler(s, h, e);
    SlotHandler(s, h, e);
    TrackHandler(s, h, e);
    ChannelHandler(s, h, e);
  }

  lemma TypeClose(s: State, f: Fid, c: CloseEvent)
    requires TypeInv(s) && EnabledClose(s, f, c)
    ensures TypeInv(ApplyClose(s, f, c))
  {
  }

  lemma ChannelClose(s: State, f: Fid, c: CloseEvent)
    requires TrackInv(s) && ChannelInv(s) && EnabledClose(s, f, c)
    ensures ChannelInv(ApplyClose(s, f, c))
  {
  }

  lemma KeptClose(s: State, f: Fid, c: CloseEvent)
    requires Inv(s) && EnabledClose(s, f, c)
    ensures Inv(ApplyClose(s, f, c))
  {
    TypeClose(s, f, c);
    SlotClose(s, f, c);
    TrackClose(s, f, c);
    ChannelClose(s, f, c);
  }

  lemma StepKeepsInv(s: State, a: Step)
    requires Inv(s) && Enabled(s, a)
    ensures Inv(Apply(s, a))
  {
    match a
    case Handle(h, e) => KeptHandler(s, h, e);
    case CloseStep(f, c) => KeptClose(s, f, c);
    case _ => KeptArrival(s, a);
  }

  lemma {:induction false} RunKeepsInv(s: State, tr: seq<Step>)
    requires Init(s) && Feasible(s, tr)
    ensures Inv(Exec(s, tr))
  {
    if tr != [] {
      RunKeepsInv(s, tr[..|tr| - 1]);
      StepKeepsInv(Exec(s, tr[..|tr| - 1]), tr[|tr| - 1]);
    }
  }

  ghost predicate Reachable(s0: State, s: State) {
    exists tr :: Feasible(s0, tr) && Exec(s0, tr) == s
  }

  lemma ReachStep(s0: State, s: State, a: Step, s': State)
    requires Reachable(s0, s) && Enabled(s, a) && Apply(s, a) == s'
    ensures Reachable(s0, s')
  {
    var tr :| Feasible(s0, tr) && Exec(s0, tr) == s;
    assert (tr + [a])[..|tr|] == tr;
    assert Feasible(s0, tr + [a]) && Exec(s0, tr + [a]) == s';
  }

  // ---------------------------------------------------------------- the visitor cap

  /** Across all forward generations and every interleaving of load and compare-and-swap, a
      leaseState's counter is the number of handlers holding one of its slots, and never
      leaves 0..max. */
  lemma CounterCountsSlots(s0: State, tr: seq<Step>, sid: Sid)
    requires Init(s0) && Feasible(s0, tr) && sid in Exec(s0, tr).counters
    ensures 0 <= Exec(s0, tr).counters[sid] == |Holders(Exec(s0, tr), sid)| <= s0.max
  {
    RunKeepsInv(s0, tr);
    MaxIsFixed(s0, tr);
  }

  lemma {:induction false} MaxIsFixed(s0: State, tr: seq<Step>)
    requires Feasible(s0, tr)
    ensures Exec(s0, tr).max == s0.max
  {
    if tr != [] {
      MaxIsFixed(s0, tr[..|tr| - 1]);
      var s := Exec(s0, tr[..|tr| - 1]);
      match tr[|tr| - 1]
      case Handle(h, e) => HandlerFrame(s, h, e);
      case _ =>
    }
  }

  // ---------------------------------------------------------------- teardown

  ghost predicate TrackedOn(s: State, h: Hid, f: Fid) {
    h in s.handlers && s.handlers[h].f == f && IsTracked(s.handlers[h].pc)
  }

  /** After close() has run, every visitor socket that passed trackVisitor is closed, and a
      handler in its copy phase has lost its SSH channel as well, so both copies return. */
  lemma TeardownReachesVisitors(s0: State, tr: seq<Step>, f: Fid, h: Hid)
    requires Init(s0) && Feasible(s0, tr)
    requires f in Exec(s0, tr).fwds && Exec(s0, tr).fwds[f].phase.Shut? && TrackedOn(Exec(s0, tr), h, f)
    ensures h in Exec(s0, tr).closedSocks
    ensures Exec(s0, tr).handlers[h].pc.Copying? ==> h in Exec(s0, tr).closedChans
  {
    RunKeepsInv(s0, tr);
  }

  lemma FeasiblePrefix(s: State, tr: seq<Step>, k: nat)
    requires Feasible(s, tr) && k <= |tr|
    ensures Feasible(s, tr[..k])
    decreases |tr|
  {
    if k == |tr| {
      assert tr[..k] == tr;
    } else {
      FeasiblePrefix(s, tr[..|tr| - 1], k);
      assert tr[..|tr| - 1][..k] == tr[..k];
    }
  }

  /** The state after the first k steps of a run. */
  ghost function StateAt(s: State, tr: seq<Step>, k: nat): State
    requires Feasible(s, tr) && k <= |tr|
  {
    FeasiblePrefix(s, tr, k);
    Exec(s, tr[..k])
  }

  lemma StateAtStep(s: State, tr: seq<Step>, k: nat)
    requires Feasible(s, tr) && k < |tr|
    ensures Enabled(StateAt(s, tr, k), tr[k]) && StateAt(s, tr, k + 1) == Apply(StateAt(s, tr, k), tr[k])
  {
    FeasiblePrefix(s, tr, k);
    FeasiblePrefix(s, tr, k + 1);
    assert tr[..k + 1][..k] == tr[..k];
  }

  lemma StateAtInv(s: State, tr: seq<Step>, k: nat)
    requires Init(s) && Feasible(s, tr) && k <= |tr|
    ensures Inv(StateAt(s, tr, k))
  {
    FeasiblePrefix(s, tr, k);
    RunKeepsInv(s, tr[..k]);
  }

  /** The forward is closed and the handler is not among those it tracks. */
  ghost predicate Missed(s: State, f: Fid, h: Hid) {
    f in s.fwds && Closed(s.fwds[f].phase) && !TrackedOn(s, h, f)
  }

  lemma LateStep(s: State, x: Hid, e: HandlerEvent, f: Fid, h: Hid)
    requires EnabledHandler(s, x, e) && Missed(s, f, h)
    ensures Missed(ApplyHandler(s, x, e), f, h)
  {
    HandlerFrame(s, x, e);
  }

  lemma LateHandler(s: State, a: Step, f: Fid, h: Hid)
    requires Enabled(s, a) && Missed(s, f, h)
    ensures Missed(Apply(s, a), f, h)
  {
    match a
    case Handle(x, e) => LateStep(s, x, e, f, h);
    case CloseStep(g, c) =>
    case _ =>
  }

  /** Once close() has set `closed`, no handler that was not tracked then is ever tracked on
      that forward, however late it arrives. */
  lemma {:induction false} NoLateVisitor(s0: State, tr: seq<Step>, i: nat, k: nat, f: Fid, h: Hid)
    requires Feasible(s0, tr) && i <= k <= |tr| && Missed(StateAt(s0, tr, i), f, h)
    ensures Missed(StateAt(s0, tr, k), f, h)
  {
    if i < k {
      NoLateVisitor(s0, tr, i, k - 1, f, h);
      StateAtStep(s0, tr, k - 1);
      LateHandler(StateAt(s0, tr, k - 1), tr[k - 1], f, h);
    }
  }

  /** A step the handler can take without the visitor or the SSH client doing anything: the
      copies return because both ends are closed, opening a channel fails because the
      connection is closed. */
  ghost predicate Unaided(s: State, h: Hid, e: HandlerEvent) {
    && EnabledHandler(s, h, e)
    && !e.Refuse? && !e.OpenSucceeds?
    && (e.OpenFails? ==> s.fwds[s.handlers[h].f].owner in s.closedConns)
    && (e.CopyEnds? ==> h in s.closedSocks && h in s.closedChans)
  }

  function NextEvent(pc: PC): HandlerEvent
    requires !pc.Finished?
  {
    match pc
    case Accepted => TrackVisitor
    case Tracked => Load
    case Loaded(_) => Swap
    case Slot => OpenFails
    case Opened => SetChannel
    case Copying => CopyEnds
    case ShutChan => CloseChannel
    case Release => ReleaseSlot
    case Untrack => UntrackVisitor
    case ShutSock => CloseSocket
  }

  /** On a shut forward only opening a channel can make a handler wait, and only while the
      connection is open. */
  lemma Unblocked(s: State, h: Hid)
    requires TypeInv(s) && TrackInv(s) && h in s.handlers && !s.handlers[h].pc.Finished?
    requires s.fwds[s.handlers[h].f].phase.Shut?
    ensures (exists e :: Unaided(s, h, e)) <==> !s.handlers[h].pc.Slot? || s.fwds[s.handlers[h].f].owner in s.closedConns
  {
    assert Reached(s.fwds[s.handlers[h].f], h, s.handlers[h].pc, s.closedSocks, s.closedChans);
    assert !s.handlers[h].pc.Slot? || s.fwds[s.handlers[h].f].owner in s.closedConns ==>
      Unaided(s, h, NextEvent(s.handlers[h].pc));
  }

  /** Once the forward is shut, a handler on it that has not finished has a step to take without
      anybody's help if and only if it is not waiting for its channel to be opened, or its
      connection is closed as well. */
  lemma NothingBlocksTeardown(s0: State, tr: seq<Step>, f: Fid, h: Hid)
    requires Init(s0) && Feasible(s0, tr)
    requires
      var s := Exec(s0, tr);
      && f in s.fwds && s.fwds[f].phase.Shut?
      && h in s.handlers && s.handlers[h].f == f && !s.handlers[h].pc.Finished?
    ensures
      var s := Exec(s0, tr);
      (exists e :: Unaided(s, h, e)) <==> !s.handlers[h].pc.Slot? || s.fwds[f].owner in s.closedConns
  {
    RunKeepsInv(s0, tr);
    Unblocked(Exec(s0, tr), h);
  }

  /** When one torn-down forward has come to rest, whatever other forwards of its leaseState do,
      nothing of it is left: every handler has finished, every visitor socket and SSH channel is
      closed, and no slot is held. */
  lemma RestedForwardIsClean(s0: State, tr: seq<Step>, f: Fid, h: Hid)
    requires Init(s0) && Feasible(s0, tr)
    requires
      var s := Exec(s0, tr);
      && f in s.fwds && s.fwds[f].phase.Shut? && s.fwds[f].owner in s.closedConns
      && (forall x, e :: x in s.handlers && s.handlers[x].f == f ==> !Unaided(s, x, e))
      && h in s.handlers && s.handlers[h].f == f
    ensures
      var s := Exec(s0, tr);
      && s.handlers[h].pc.Finished? && h in s.closedSocks
      && (h in s.openedChans ==> h in s.closedChans)
      && h !in Holders(s, s.fwds[f].owner)
  {
    RunKeepsInv(s0, tr);
    if !Exec(s0, tr).handlers[h].pc.Finished? {
      NothingBlocksTeardown(s0, tr, f, h);
    }
  }
}

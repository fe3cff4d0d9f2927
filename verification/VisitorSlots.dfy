/** What a visitor handler gets: over every run each of its decisions is exactly the one the
    state of its leaseState and its forward calls for, and the cap can be used in full. */
module VisitorSlots {
  import opened Visitors
  import opened VisitorProofs

  // ---------------------------------------------------------------- the slot

  /** The leaseState that handler h belongs to. */
  ghost function OwnerOf(s: State, h: Hid): Sid
    requires h in s.handlers && s.handlers[h].f in s.fwds
  {
    s.fwds[s.handlers[h].f].owner
  }

  /** How many slots of h's leaseState are taken. */
  ghost function Taken(s: State, h: Hid): nat
    requires h in s.handlers && s.handlers[h].f in s.fwds
  {
    |Holders(s, OwnerOf(s, h))|
  }

  lemma LoadStep(s: State, h: Hid)
    requires SlotInv(s) && EnabledHandler(s, h, Load)
    ensures ApplyHandler(s, h, Load).handlers[h].pc == if Taken(s, h) == s.max then Untrack else Loaded(Taken(s, h))
  {
  }

  /** In every run, a handler that loads the counter is turned away if and only if all max slots
      of its leaseState are taken at that moment, and otherwise goes on with their number. */
  lemma TurnedAwayIffFull(s0: State, tr: seq<Step>, k: nat, h: Hid)
    requires Init(s0) && Feasible(s0, tr) && k < |tr| && tr[k] == Handle(h, Load)
    ensures
      var s, s' := StateAt(s0, tr, k), StateAt(s0, tr, k + 1);
      && h in s.handlers && s.handlers[h].f in s.fwds && h in s'.handlers
      && s'.handlers[h].pc == if Taken(s, h) == s0.max then Untrack else Loaded(Taken(s, h))
  {
    StateAtStep(s0, tr, k);
    StateAtInv(s0, tr, k);
    FeasiblePrefix(s0, tr, k);
    MaxIsFixed(s0, tr[..k]);
    LoadStep(StateAt(s0, tr, k), h);
  }

  predicate Reserving(pc: PC) {
    pc.Tracked? || pc.Loaded?
  }

  lemma ReservingStep(s: State, a: Step, h: Hid)
    requires SlotInv(s) && TypeInv(s) && Enabled(s, a) && h in s.handlers && Reserving(s.handlers[h].pc)
    ensures
      var s' := Apply(s, a);
      && h in s'.handlers
      && (|| Reserving(s'.handlers[h].pc)
          || (a == Handle(h, Swap) && s'.handlers[h].pc == Slot)
          || (a == Handle(h, Load) && s'.handlers[h].pc == Untrack && Taken(s, h) == s.max))
  {
    match a
    case Handle(x, e) =>
      HandlerFrame(s, x, e);
      if x == h && e == Load {
        LoadStep(s, h);
      }
    case CloseStep(f, c) =>
    case _ =>
  }

  /** In every run, a handler leaves reserveVisitorSlot only with a slot, or when it found all
      slots taken. */
  lemma OnlyFullTurnsAway(s0: State, tr: seq<Step>, k: nat, h: Hid)
    requires Init(s0) && Feasible(s0, tr) && k < |tr|
    requires h in StateAt(s0, tr, k).handlers && Reserving(StateAt(s0, tr, k).handlers[h].pc)
    ensures
      var s, s' := StateAt(s0, tr, k), StateAt(s0, tr, k + 1);
      && h in s'.handlers && s.handlers[h].f in s.fwds
      && (Reserving(s'.handlers[h].pc) || s'.handlers[h].pc == Slot || (s'.handlers[h].pc == Untrack && Taken(s, h) == s0.max))
  {
    StateAtStep(s0, tr, k);
    StateAtInv(s0, tr, k);
    FeasiblePrefix(s0, tr, k);
    MaxIsFixed(s0, tr[..k]);
    ReservingStep(StateAt(s0, tr, k), tr[k], h);
  }

  /** The handler has not moved since and its forward still belongs to the same leaseState. */
  ghost predicate SameHandler(s: State, s': State, h: Hid) {
    && h in s.handlers && h in s'.handlers && s'.handlers[h] == s.handlers[h]
    && s.handlers[h].f in s.fwds && s.handlers[h].f in s'.fwds && OwnerOf(s', h) == OwnerOf(s, h)
  }

  lemma SameStep(s: State, a: Step, h: Hid)
    requires TypeInv(s) && Enabled(s, a) && h in s.handlers && !(a.Handle? && a.h == h)
    ensures SameHandler(s, Apply(s, a), h)
  {
    match a
    case Handle(x, e) => HandlerFrame(s, x, e);
    case CloseStep(f, c) =>
    case _ =>
  }

  lemma SameStill(s: State, s1: State, a: Step, h: Hid)
    requires SameHandler(s, s1, h) && TypeInv(s1) && Enabled(s1, a) && !(a.Handle? && a.h == h)
    ensures SameHandler(s, Apply(s1, a), h)
  {
    SameStep(s1, a, h);
  }

  lemma TypeAt(s0: State, tr: seq<Step>, k: nat)
    requires Init(s0) && Feasible(s0, tr) && k <= |tr|
    ensures TypeInv(StateAt(s0, tr, k))
  {
    StateAtInv(s0, tr, k);
  }

  lemma {:induction false} SameRun(s0: State, tr: seq<Step>, i: nat, k: nat, h: Hid)
    requires Init(s0) && Feasible(s0, tr) && i <= k <= |tr| && h in StateAt(s0, tr, i).handlers
    requires forall n :: i <= n < k ==> !(tr[n].Handle? && tr[n].h == h)
    ensures SameHandler(StateAt(s0, tr, i), StateAt(s0, tr, k), h)
    decreases k
  {
    if i == k {
      TypeAt(s0, tr, i);
    } else {
      SameRun(s0, tr, i, k - 1, h);
      StateAtStep(s0, tr, k - 1);
      TypeAt(s0, tr, k - 1);
      SameStill(StateAt(s0, tr, i), StateAt(s0, tr, k - 1), tr[k - 1], h);
    }
  }

  lemma SwapStep(s: State, h: Hid)
    requires SlotInv(s) && EnabledHandler(s, h, Swap)
    ensures ApplyHandler(s, h, Swap).handlers[h].pc == if s.handlers[h].pc.cur == Taken(s, h) then Slot else Tracked
  {
  }

  /** A handler that loads with a slot free and compares and swaps next gets its slot if and only
      if as many slots are taken at the swap as at the load; otherwise it tries again. */
  lemma SwapWinsIff(s0: State, tr: seq<Step>, i: nat, k: nat, h: Hid)
    requires Init(s0) && Feasible(s0, tr) && i < k < |tr| && tr[i] == Handle(h, Load) && tr[k] == Handle(h, Swap)
    requires forall n :: i < n < k ==> !(tr[n].Handle? && tr[n].h == h)
    ensures
      var s, s', s'' := StateAt(s0, tr, i), StateAt(s0, tr, k), StateAt(s0, tr, k + 1);
      && h in s.handlers && s.handlers[h].f in s.fwds && h in s'.handlers && s'.handlers[h].f in s'.fwds && h in s''.handlers
      && s''.handlers[h].pc == if Taken(s', h) == Taken(s, h) then Slot else Tracked
  {
    TurnedAwayIffFull(s0, tr, i, h);
    SameRun(s0, tr, i + 1, k, h);
    StateAtStep(s0, tr, k);
    StateAtInv(s0, tr, k);
    SwapStep(StateAt(s0, tr, k), h);
  }

  lemma CounterStep(s: State, a: Step, sid: Sid)
    requires Enabled(s, a) && sid in s.counters && !(a.Handle? && (a.e == Swap || a.e == ReleaseSlot))
    ensures sid in Apply(s, a).counters && Apply(s, a).counters[sid] == s.counters[sid]
  {
    match a
    case Handle(x, e) =>
    case CloseStep(f, c) =>
    case _ =>
  }

  lemma {:induction false} CounterRun(s0: State, tr: seq<Step>, i: nat, k: nat, sid: Sid)
    requires Feasible(s0, tr) && i <= k <= |tr| && sid in StateAt(s0, tr, i).counters
    requires forall n :: i <= n < k ==> !(tr[n].Handle? && (tr[n].e == Swap || tr[n].e == ReleaseSlot))
    ensures sid in StateAt(s0, tr, k).counters && StateAt(s0, tr, k).counters[sid] == StateAt(s0, tr, i).counters[sid]
    decreases k
  {
    if i < k {
      CounterRun(s0, tr, i, k - 1, sid);
      StateAtStep(s0, tr, k - 1);
      CounterStep(StateAt(s0, tr, k - 1), tr[k - 1], sid);
    }
  }

  lemma TakenIsCounter(s0: State, tr: seq<Step>, k: nat, h: Hid)
    requires Init(s0) && Feasible(s0, tr) && k <= |tr| && h in StateAt(s0, tr, k).handlers
    ensures
      var s := StateAt(s0, tr, k);
      && s.handlers[h].f in s.fwds && OwnerOf(s, h) in s.counters
      && s.counters[OwnerOf(s, h)] == Taken(s, h)
  {
    StateAtInv(s0, tr, k);
  }

  lemma LoadKeeps(s: State, h: Hid)
    requires EnabledHandler(s, h, Load)
    ensures
      var s' := ApplyHandler(s, h, Load);
      && h in s'.handlers && s'.handlers[h].f in s'.fwds && OwnerOf(s', h) == OwnerOf(s, h)
      && s'.counters == s.counters
  {
  }

  /** A handler whose load finds a slot free, and whose swap nobody gets in between, has its slot. */
  lemma UndisturbedGetsSlot(s0: State, tr: seq<Step>, i: nat, k: nat, h: Hid)
    requires Init(s0) && Feasible(s0, tr) && i < k < |tr| && tr[i] == Handle(h, Load) && tr[k] == Handle(h, Swap)
    requires forall n :: i < n < k ==> !(tr[n].Handle? && (tr[n].h == h || tr[n].e == Swap || tr[n].e == ReleaseSlot))
    ensures h in StateAt(s0, tr, k + 1).handlers && StateAt(s0, tr, k + 1).handlers[h].pc == Slot
  {
    SwapWinsIff(s0, tr, i, k, h);
    StateAtStep(s0, tr, i);
    LoadKeeps(StateAt(s0, tr, i), h);
    SameRun(s0, tr, i + 1, k, h);
    TakenIsCounter(s0, tr, i, h);
    TakenIsCounter(s0, tr, k, h);
    CounterRun(s0, tr, i + 1, k, OwnerOf(StateAt(s0, tr, i), h));
  }

  // ---------------------------------------------------------------- tracking and the channel

  /** The step does to the forward and the handler what an open, or a closed, forward calls for. */
  ghost predicate Decides(s: State, s': State, h: Hid, e: HandlerEvent)
    requires h in s.handlers && s.handlers[h].f in s.fwds
  {
    var f := s.handlers[h].f;
    && h in s'.handlers && f in s'.fwds
    && (if Closed(s.fwds[f].phase) then s'.handlers[h].pc == (if e == TrackVisitor then ShutSock else ShutChan) && s'.fwds[f] == s.fwds[f]
        else s'.handlers[h].pc == (if e == TrackVisitor then Tracked else Copying) &&
             s'.fwds[f].visitors == s.fwds[f].visitors[h := e == SetChannel])
  }

  lemma DecidesStep(s: State, h: Hid, e: HandlerEvent)
    requires TrackInv(s) && EnabledHandler(s, h, e) && (e == TrackVisitor || e == SetChannel)
    ensures Decides(s, ApplyHandler(s, h, e), h, e)
  {
    assert Reached(s.fwds[s.handlers[h].f], h, s.handlers[h].pc, s.closedSocks, s.closedChans);
  }

  /** In every run, trackVisitor and setVisitorChannel let a handler through if and only if its
      forward has not been closed: a handler that has come so far is always still tracked. */
  lemma ClosedTurnsAway(s0: State, tr: seq<Step>, k: nat, h: Hid, e: HandlerEvent)
    requires Init(s0) && Feasible(s0, tr) && k < |tr| && tr[k] == Handle(h, e) && (e == TrackVisitor || e == SetChannel)
    ensures h in StateAt(s0, tr, k).handlers && StateAt(s0, tr, k).handlers[h].f in StateAt(s0, tr, k).fwds
    ensures Decides(StateAt(s0, tr, k), StateAt(s0, tr, k + 1), h, e)
  {
    StateAtStep(s0, tr, k);
    StateAtInv(s0, tr, k);
    DecidesStep(StateAt(s0, tr, k), h, e);
  }

  /** The handler's channel has been opened. */
  predicate HasChannel(pc: PC) {
    pc.Opened? || pc.Copying? || pc.ShutChan?
  }

  ghost predicate ChannelsOpened(s: State) {
    && s.closedChans <= s.openedChans
    && (forall h :: h in s.handlers && HasChannel(s.handlers[h].pc) ==> h in s.openedChans)
    && (forall f, h :: f in s.fwds && h in s.fwds[f].visitors && s.fwds[f].visitors[h] ==> h in s.openedChans)
  }

  lemma OpenedHandler(s: State, h: Hid, e: HandlerEvent)
    requires ChannelsOpened(s) && EnabledHandler(s, h, e)
    ensures ChannelsOpened(ApplyHandler(s, h, e))
  {
  }

  lemma {:induction false} OpenedRun(s0: State, tr: seq<Step>)
    requires Init(s0) && Feasible(s0, tr)
    ensures ChannelsOpened(Exec(s0, tr))
  {
    if tr != [] {
      var s := Exec(s0, tr[..|tr| - 1]);
      OpenedRun(s0, tr[..|tr| - 1]);
      match tr[|tr| - 1]
      case Handle(h, e) => OpenedHandler(s, h, e);
      case CloseStep(f, c) =>
      case _ =>
    }
  }

  /** Only a channel that has been opened is ever closed, and no handler copies without one. */
  lemma OnlyOpenedChannelsClose(s0: State, tr: seq<Step>, h: Hid)
    requires Init(s0) && Feasible(s0, tr)
    ensures h in Exec(s0, tr).closedChans ==> h in Exec(s0, tr).openedChans
    ensures h in Exec(s0, tr).handlers && Exec(s0, tr).handlers[h].pc.Copying? ==> h in Exec(s0, tr).openedChans
  {
    OpenedRun(s0, tr);
  }

  // ---------------------------------------------------------------- the cap is used in full

  /** One leaseState with one listening forward, and n visitors that all hold a slot. */
  ghost predicate Busy(s: State, n: nat) {
    && s.counters == map[0 := n] && 0 in s.fwds && s.fwds[0].owner == 0 && s.fwds[0].phase == Listening
    && (forall h :: h in s.handlers <==> 0 <= h < n)
    && (forall h :: h in s.handlers ==> s.handlers[h] == Handler(0, Slot))
  }

  lemma ReachHandler(s0: State, s: State, h: Hid, e: HandlerEvent, s': State)
    requires Reachable(s0, s) && EnabledHandler(s, h, e) && ApplyHandler(s, h, e) == s'
    ensures Reachable(s0, s')
  {
    ReachStep(s0, s, Handle(h, e), s');
  }

  /** One more visitor, at the given point of its handler. */
  ghost function With(s: State, n: nat, pc: PC): State {
    s.(handlers := s.handlers[n := Handler(0, pc)])
  }

  lemma ArriveOne(s0: State, s: State, n: nat) returns (s': State)
    requires Reachable(s0, s) && Busy(s, n) && n < s.max
    ensures Reachable(s0, s') && s' == With(s, n, Tracked).(fwds := s.fwds[0 := TrackIn(s.fwds[0], n)])
  {
    ReachStep(s0, s, Accept(n, 0), With(s, n, Accepted));
    s' := With(s, n, Tracked).(fwds := s.fwds[0 := TrackIn(s.fwds[0], n)]);
    ReachHandler(s0, With(s, n, Accepted), n, TrackVisitor, s');
  }

  lemma ReserveOne(s0: State, s: State, n: nat) returns (s': State)
    requires Reachable(s0, s) && n < s.max && n in s.handlers && s.handlers[n] == Handler(0, Tracked)
    requires s.counters == map[0 := n] && 0 in s.fwds && s.fwds[0].owner == 0
    ensures Reachable(s0, s') && s' == With(s, n, Slot).(counters := map[0 := n + 1])
  {
    ReachHandler(s0, s, n, Load, With(s, n, Loaded(n)));
    s' := With(s, n, Slot).(counters := map[0 := n + 1]);
    assert s.counters[0 := n + 1] == map[0 := n + 1];
    ReachHandler(s0, With(s, n, Loaded(n)), n, Swap, s');
  }

  lemma OneMore(s0: State, s: State, n: nat) returns (s': State)
    requires Reachable(s0, s) && Busy(s, n) && n < s.max
    ensures Reachable(s0, s') && Busy(s', n + 1) && s'.max == s.max
  {
    var s1 := ArriveOne(s0, s, n);
    s' := ReserveOne(s0, s1, n);
  }

  lemma {:induction false} BusyRun(s0: State, n: nat) returns (s: State)
    requires Init(s0) && n <= s0.max
    ensures Reachable(s0, s) && Busy(s, n) && s.max == s0.max
  {
    if n == 0 {
      assert Feasible(s0, []) && Exec(s0, []) == s0;
      var s1 := s0.(counters := map[0 := 0]);
      ReachStep(s0, s0, NewState(0), s1);
      s := s1.(fwds := map[0 := Forward(0, Listening, map[])]);
      ReachStep(s0, s1, NewForward(0, 0), s);
    } else {
      var fewer := BusyRun(s0, n - 1);
      s := OneMore(s0, fewer, n - 1);
    }
  }

  lemma {:induction false} FirstNumbers(hs: set<Hid>, n: nat)
    requires forall h :: h in hs <==> 0 <= h < n
    ensures |hs| == n
  {
    if n > 0 {
      FirstNumbers(hs - {n - 1}, n - 1);
    } else {
      assert hs == {};
    }
  }

  /** For every n up to the cap some run has n visitors of one leaseState holding slots at once. */
  lemma CapCanBeUsed(s0: State, n: nat)
    requires Init(s0) && n <= s0.max
    ensures exists s :: Reachable(s0, s) && |Holders(s, 0)| == n
  {
    var s := BusyRun(s0, n);
    assert forall h :: h in Holders(s, 0) <==> 0 <= h < n;
    FirstNumbers(Holders(s, 0), n);
  }
}

/** Teardown of a leaseState comes to an end: the steps its handlers can still take are bounded,
    compare-and-swaps lost against each other included, and they do not stop before every
    handler has finished. */
module VisitorTeardown {
  import opened Visitors
  import opened VisitorProofs

  // ---------------------------------------------------------------- the budget of one handler

  function Rank(pc: PC): nat {
    match pc
    case Accepted => 10
    case Tracked => 9
    case Loaded(_) => 8
    case Slot => 7
    case Opened => 6
    case Copying => 5
    case ShutChan => 4
    case Release => 3
    case Untrack => 2
    case ShutSock => 1
    case Finished => 0
  }

  /** How often the handler may still change the counter, times what that can cost each of m others. */
  function Charge(pc: PC, m: nat): nat {
    if pc.Accepted? || pc.Tracked? || pc.Loaded? then 4 * m
    else if HoldsSlot(pc) then 2 * m
    else 0
  }

  /** A handler that has loaded an outdated counter has a lost compare-and-swap and a second
      load ahead of it. */
  function Budget(pc: PC, counter: int, m: nat): nat {
    Rank(pc) + Charge(pc, m) + if pc.Loaded? && pc.cur != counter then 2 else 0
  }

  /** Each step of a handler costs it at least one, and what its change of the counter, if any,
      can cost m others. */
  lemma StepCosts(s: State, h: Hid, e: HandlerEvent, m: nat)
    requires EnabledHandler(s, h, e)
    ensures
      var sid := s.fwds[s.handlers[h].f].owner;
      var s' := ApplyHandler(s, h, e);
      && h in s'.handlers && sid in s'.counters
      && Budget(s'.handlers[h].pc, s'.counters[sid], m) + 1 + (if s'.counters[sid] != s.counters[sid] then 2 * m else 0)
           <= Budget(s.handlers[h].pc, s.counters[sid], m)
  {
  }

  // ---------------------------------------------------------------- the budget of all

  ghost predicate Distinct(hs: seq<Hid>) {
    forall i, j :: 0 <= i < j < |hs| ==> hs[i] != hs[j]
  }

  ghost function Total(hs: seq<Hid>, p: Hid -> int): int {
    if hs == [] then 0 else p(hs[0]) + Total(hs[1..], p)
  }

  lemma {:induction false} TotalGrows(hs: seq<Hid>, p: Hid -> int, q: Hid -> int, d: nat)
    requires forall x :: x in hs ==> q(x) <= p(x) + d
    ensures Total(hs, q) <= Total(hs, p) + d * |hs|
  {
    if hs != [] {
      TotalGrows(hs[1..], p, q, d);
      assert d * |hs| == d * |hs[1..]| + d;
    }
  }

  /** One element pays for itself and for what the others may gain. */
  lemma {:induction false} TotalDrops(hs: seq<Hid>, p: Hid -> int, q: Hid -> int, h: Hid, d: nat)
    requires Distinct(hs) && h in hs
    requires forall x :: x in hs && x != h ==> q(x) <= p(x) + d
    ensures Total(hs, q) - q(h) <= Total(hs, p) - p(h) + d * (|hs| - 1)
  {
    var rest := hs[1..];
    if hs[0] == h {
      assert h !in rest;
      TotalGrows(rest, p, q, d);
    } else {
      assert h in rest;
      TotalDrops(rest, p, q, h, d);
      assert d * (|hs| - 1) == d * (|rest| - 1) + d;
    }
  }

  // ---------------------------------------------------------------- a leaseState going down

  /** hs lists the handlers of the leaseState, each once. */
  ghost predicate Lists(s: State, sid: Sid, hs: seq<Hid>) {
    && Distinct(hs)
    && (forall h :: h in hs ==> h in s.handlers)
    && (forall h :: h in s.handlers && s.handlers[h].f in s.fwds ==> (h in hs <==> s.fwds[s.handlers[h].f].owner == sid))
  }

  /** The leaseState has only shut forwards. */
  ghost predicate Quiet(s: State, sid: Sid) {
    sid in s.counters && forall f :: f in s.fwds && s.fwds[f].owner == sid ==> s.fwds[f].phase.Shut?
  }

  ghost predicate GoingDown(s: State, sid: Sid, hs: seq<Hid>) {
    TypeInv(s) && Quiet(s, sid) && Lists(s, sid, hs)
  }

  ghost function Price(s: State, sid: Sid, m: nat): Hid -> int {
    h => if h in s.handlers && sid in s.counters then Budget(s.handlers[h].pc, s.counters[sid], m) else 0
  }

  ghost predicate StepOf(a: Step, hs: seq<Hid>) {
    a.Handle? && a.h in hs
  }

  lemma {:induction false} TotalSame(hs: seq<Hid>, p: Hid -> int, q: Hid -> int)
    requires forall x :: x in hs ==> q(x) == p(x)
    ensures Total(hs, q) == Total(hs, p)
  {
    if hs != [] {
      TotalSame(hs[1..], p, q);
    }
  }

  /** The leaseState's counter and its handlers are as they were. */
  ghost predicate Elsewhere(s: State, s': State, sid: Sid, hs: seq<Hid>) {
    && sid in s.counters && sid in s'.counters && s'.counters[sid] == s.counters[sid]
    && forall h :: h in hs ==> h in s.handlers && h in s'.handlers && s'.handlers[h] == s.handlers[h]
  }

  lemma ElsewhereIsFree(s: State, s': State, sid: Sid, hs: seq<Hid>, m: nat)
    requires Elsewhere(s, s', sid, hs)
    ensures Total(hs, Price(s', sid, m)) == Total(hs, Price(s, sid, m))
  {
    TotalSame(hs, Price(s, sid, m), Price(s', sid, m));
  }

  lemma OtherStep(s: State, a: Step, sid: Sid, hs: seq<Hid>)
    requires GoingDown(s, sid, hs) && Enabled(s, a) && !StepOf(a, hs) && !(a.NewForward? && a.sid == sid)
    ensures Elsewhere(s, Apply(s, a), sid, hs) && Quiet(Apply(s, a), sid) && Lists(Apply(s, a), sid, hs)
  {
    match a
    case Handle(h, e) => HandlerFrame(s, h, e);
    case CloseStep(f, c) =>
    case _ =>
  }

  lemma OwnStepKeeps(s: State, h: Hid, e: HandlerEvent, sid: Sid, hs: seq<Hid>)
    requires GoingDown(s, sid, hs) && EnabledHandler(s, h, e) && h in hs
    ensures Quiet(ApplyHandler(s, h, e), sid) && Lists(ApplyHandler(s, h, e), sid, hs)
  {
    HandlerFrame(s, h, e);
  }

  lemma OwnStepCosts(s: State, h: Hid, e: HandlerEvent, sid: Sid, hs: seq<Hid>)
    requires GoingDown(s, sid, hs) && EnabledHandler(s, h, e) && h in hs
    ensures Total(hs, Price(ApplyHandler(s, h, e), sid, |hs| - 1)) + 1 <= Total(hs, Price(s, sid, |hs| - 1))
  {
    var s', m := ApplyHandler(s, h, e), |hs| - 1;
    var p, q := Price(s, sid, m), Price(s', sid, m);
    var d := if s'.counters[sid] != s.counters[sid] then 2 else 0;
    StepCosts(s, h, e, m);
    HandlerFrame(s, h, e);
    TotalDrops(hs, p, q, h, d);
  }

  // ---------------------------------------------------------------- runs

  /** How many of the steps from i up to k are taken by the listed handlers. */
  ghost function Count(tr: seq<Step>, i: nat, k: nat, hs: seq<Hid>): nat
    requires i <= k <= |tr|
    decreases k
  {
    if k == i then 0 else Count(tr, i, k - 1, hs) + if StepOf(tr[k - 1], hs) then 1 else 0
  }

  function Others(hs: seq<Hid>): nat {
    if hs == [] then 0 else |hs| - 1
  }

  /** The leaseState has closed its connection and shut its forwards, hs are its handlers, and
      from then on, up to step k, it gets no new forward. */
  ghost predicate TornDown(s0: State, tr: seq<Step>, i: nat, k: nat, sid: Sid, hs: seq<Hid>)
    requires Feasible(s0, tr) && i <= k <= |tr|
  {
    && Quiet(StateAt(s0, tr, i), sid) && Lists(StateAt(s0, tr, i), sid, hs)
    && sid in StateAt(s0, tr, i).closedConns
    && forall n :: i <= n < k ==> !(tr[n].NewForward? && tr[n].sid == sid)
  }

  lemma SpendStep(s: State, a: Step, sid: Sid, hs: seq<Hid>)
    requires GoingDown(s, sid, hs) && Enabled(s, a) && !(a.NewForward? && a.sid == sid)
    ensures Quiet(Apply(s, a), sid) && Lists(Apply(s, a), sid, hs)
    ensures Total(hs, Price(Apply(s, a), sid, Others(hs))) + (if StepOf(a, hs) then 1 else 0) <= Total(hs, Price(s, sid, Others(hs)))
  {
    if StepOf(a, hs) {
      OwnStepKeeps(s, a.h, a.e, sid, hs);
      OwnStepCosts(s, a.h, a.e, sid, hs);
    } else {
      OtherStep(s, a, sid, hs);
      ElsewhereIsFree(s, Apply(s, a), sid, hs, Others(hs));
    }
  }

  lemma StaysClosed(s: State, a: Step, sid: Sid)
    requires Enabled(s, a) && sid in s.closedConns
    ensures sid in Apply(s, a).closedConns
  {
    if a.Handle? {
      HandlerFrame(s, a.h, a.e);
    }
  }

  lemma {:induction false} SpendRun(s0: State, tr: seq<Step>, i: nat, k: nat, sid: Sid, hs: seq<Hid>)
    requires Init(s0) && Feasible(s0, tr) && i <= k <= |tr| && TornDown(s0, tr, i, k, sid, hs)
    ensures GoingDown(StateAt(s0, tr, k), sid, hs) && sid in StateAt(s0, tr, k).closedConns
    ensures Total(hs, Price(StateAt(s0, tr, k), sid, Others(hs))) + Count(tr, i, k, hs)
              <= Total(hs, Price(StateAt(s0, tr, i), sid, Others(hs)))
    decreases k
  {
    StateAtInv(s0, tr, k);
    if i < k {
      SpendRun(s0, tr, i, k - 1, sid, hs);
      StateAtStep(s0, tr, k - 1);
      SpendStep(StateAt(s0, tr, k - 1), tr[k - 1], sid, hs);
      StaysClosed(StateAt(s0, tr, k - 1), tr[k - 1], sid);
    }
  }

  lemma {:induction false} TotalWithin(hs: seq<Hid>, p: Hid -> int, b: nat)
    requires forall x :: x in hs ==> 0 <= p(x) <= b
    ensures 0 <= Total(hs, p) <= b * |hs|
  {
    if hs != [] {
      TotalWithin(hs[1..], p, b);
      assert b * |hs| == b * |hs[1..]| + b;
    }
  }

  /** Nothing is left of the leaseState: its handlers have finished, their sockets and channels
      are closed, and no slot is taken. */
  ghost predicate Clean(s: State, sid: Sid, hs: seq<Hid>) {
    && (forall h :: h in hs ==> h in s.handlers && s.handlers[h].pc.Finished? && h in s.closedSocks)
    && (forall h :: h in hs && h in s.openedChans ==> h in s.closedChans)
    && sid in s.counters && s.counters[sid] == 0
  }

  lemma FinishedIsClean(s: State, sid: Sid, hs: seq<Hid>)
    requires Inv(s) && GoingDown(s, sid, hs) && forall h :: h in hs ==> s.handlers[h].pc.Finished?
    ensures Clean(s, sid, hs)
  {
    assert Holders(s, sid) == {};
  }

  lemma BudgetWithin(s: State, sid: Sid, hs: seq<Hid>)
    ensures 0 <= Total(hs, Price(s, sid, Others(hs))) <= 4 * |hs| * |hs| + 6 * |hs|
  {
    var n, m := |hs|, Others(hs);
    TotalWithin(hs, Price(s, sid, m), 10 + 4 * m);
    assert (10 + 4 * m) * n == 4 * n * n + 6 * n;
  }

  lemma CleanOrMoving(s: State, sid: Sid, hs: seq<Hid>)
    requires Inv(s) && GoingDown(s, sid, hs) && sid in s.closedConns
    ensures Clean(s, sid, hs) || exists h, e :: h in hs && Unaided(s, h, e)
  {
    if h :| h in hs && !s.handlers[h].pc.Finished? {
      Unblocked(s, h);
    } else {
      FinishedIsClean(s, sid, hs);
    }
  }

  /** After the teardown of a leaseState with n handlers these take at most 4*n*n + 6*n more steps
      between them, in any interleaving with anything else, and at every moment until nothing is
      left of it one of them has a step to take without anybody's help. */
  lemma TeardownEnds(s0: State, tr: seq<Step>, i: nat, k: nat, sid: Sid, hs: seq<Hid>)
    requires Init(s0) && Feasible(s0, tr) && i <= k <= |tr| && TornDown(s0, tr, i, k, sid, hs)
    ensures Count(tr, i, k, hs) <= 4 * |hs| * |hs| + 6 * |hs|
    ensures Clean(StateAt(s0, tr, k), sid, hs) || exists h, e :: h in hs && Unaided(StateAt(s0, tr, k), h, e)
  {
    SpendRun(s0, tr, i, k, sid, hs);
    BudgetWithin(StateAt(s0, tr, i), sid, hs);
    BudgetWithin(StateAt(s0, tr, k), sid, hs);
    StateAtInv(s0, tr, k);
    CleanOrMoving(StateAt(s0, tr, k), sid, hs);
  }

  // ---------------------------------------------------------------- cancel without teardown

  /** One leaseState, one forward, one handler. */
  ghost function Scene(max: int, n: int, fwd: Forward, pc: PC, socks: set<Hid>): State {
    State(max, map[0 := n], {}, map[0 := fwd], map[0 := Handler(0, pc)], socks, {}, {})
  }

  lemma ReachSlot(s0: State)
    requires s0.max > 0 && s0 == State(s0.max, map[], {}, map[], map[], {}, {}, {})
    ensures Reachable(s0, Scene(s0.max, 1, Forward(0, Listening, map[0 := false]), Slot, {}))
  {
    assert Feasible(s0, []) && Exec(s0, []) == s0;
    var s1 := s0.(counters := map[0 := 0]);
    ReachStep(s0, s0, NewState(0), s1);
    var s2 := s1.(fwds := map[0 := Forward(0, Listening, map[])]);
    ReachStep(s0, s1, NewForward(0, 0), s2);
    var fwd := Forward(0, Listening, map[0 := false]);
    ReachStep(s0, s2, Accept(0, 0), Scene(s0.max, 0, Forward(0, Listening, map[]), Accepted, {}));
    ReachStep(s0, Scene(s0.max, 0, Forward(0, Listening, map[]), Accepted, {}), Handle(0, TrackVisitor), Scene(s0.max, 0, fwd, Tracked, {}));
    ReachStep(s0, Scene(s0.max, 0, fwd, Tracked, {}), Handle(0, Load), Scene(s0.max, 0, fwd, Loaded(0), {}));
    ReachStep(s0, Scene(s0.max, 0, fwd, Loaded(0), {}), Handle(0, Swap), Scene(s0.max, 1, fwd, Slot, {}));
  }

  lemma ReachShut(s0: State, max: int)
    requires Reachable(s0, Scene(max, 1, Forward(0, Listening, map[0 := false]), Slot, {}))
    ensures Reachable(s0, Scene(max, 1, Forward(0, Shut, map[]), Slot, {0}))
  {
    var v := map[0 := false];
    ReachStep(s0, Scene(max, 1, Forward(0, Listening, v), Slot, {}), CloseStep(0, StopListening), Scene(max, 1, Forward(0, Deaf, v), Slot, {}));
    var todo, rest: set<Hid> := {0}, {};
    assert v.Keys == todo && todo - {0} == rest && rest + {0} == todo;
    ReachStep(s0, Scene(max, 1, Forward(0, Deaf, v), Slot, {}), CloseStep(0, LockVisitors), Scene(max, 1, Forward(0, Draining({0}), v), Slot, {}));
    ReachStep(s0, Scene(max, 1, Forward(0, Draining({0}), v), Slot, {}), CloseStep(0, Drain(0)), Scene(max, 1, Forward(0, Draining({}), v), Slot, {0}));
    ReachStep(s0, Scene(max, 1, Forward(0, Draining({}), v), Slot, {0}), CloseStep(0, DropVisitors), Scene(max, 1, Forward(0, Shut, map[]), Slot, {0}));
  }

  /** The handler holds a slot on a shut forward and can do nothing without help. */
  ghost predicate Stranded(s: State, f: Fid, h: Hid) {
    && f in s.fwds && s.fwds[f].phase.Shut? && h in s.handlers && s.handlers[h].f == f
    && h in Holders(s, s.fwds[f].owner) && !exists e :: Unaided(s, h, e)
  }

  /** When a forward is shut while its connection stays open, as CancelForward does it, a handler
      that holds a slot can be left waiting for the client to answer its channel. */
  lemma CancelCanStrandAHandler(s0: State)
    requires Init(s0) && s0.closedConns == {}
    ensures exists s :: Reachable(s0, s) && Stranded(s, 0, 0)
  {
    ReachSlot(s0);
    ReachShut(s0, s0.max);
    assert Stranded(Scene(s0.max, 1, Forward(0, Shut, map[]), Slot, {0}), 0, 0);
  }
}

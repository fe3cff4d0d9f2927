/** Visitor handling (`sshd/forward.go`): any number of handleVisitor goroutines on
    any number of forward generations, against close() of those forwards.

    A visitor socket is named by the goroutine that handles it, and so is the one SSH
    channel that goroutine may open. `vmu` is held across steps only by close(), in
    phase Draining; the three short critical sections of a handler (trackVisitor,
    setVisitorChannel, untrackVisitor) are single steps that need vmu free. The slot
    counter belongs to the leaseState and is reached by separate load and
    compare-and-swap steps. */
module Visitors {

  type Sid = nat
  type Fid = nat
  type Hid = nat

  /** Progress of close() on one forward; closeOnce admits one execution. */
  datatype Phase =
    | Listening
    | Deaf                      // listener closed
    | Draining(todo: set<Hid>)  // holds vmu, closed is set, todo not visited yet
    | Shut                      // visitors map dropped, vmu released

  /** `visitors` maps each tracked socket to whether its SSH channel is recorded. */
  datatype Forward = Forward(owner: Sid, phase: Phase, visitors: map<Hid, bool>)

  datatype PC =
    | Accepted         // about to check the allowlist and call trackVisitor
    | Tracked          // about to load the counter
    | Loaded(cur: int) // about to compare-and-swap
    | Slot             // slot reserved, about to open the channel
    | Opened           // channel open, about to call setVisitorChannel
    | Copying          // waiting for both copies
    | ShutChan         // deferred ch.Close
    | Release          // deferred visitors.Add(-1)
    | Untrack          // deferred untrackVisitor
    | ShutSock         // deferred vc.Close
    | Finished

  datatype Handler = Handler(f: Fid, pc: PC)

  datatype State = State(
    max: int,
    counters: map<Sid, int>,
    closedConns: set<Sid>,
    fwds: map<Fid, Forward>,
    handlers: map<Hid, Handler>,
    closedSocks: set<Hid>,
    openedChans: set<Hid>,
    closedChans: set<Hid>)

  datatype Step =
    | NewState(sid: Sid)
    | CloseConn(sid: Sid)
    | NewForward(f: Fid, sid: Sid)
    | Accept(h: Hid, f: Fid)
    | Handle(h: Hid, e: HandlerEvent)
    | CloseStep(f: Fid, c: CloseEvent)

  datatype HandlerEvent =
    | Refuse | TrackVisitor | Load | Swap | OpenFails | OpenSucceeds | SetChannel | CopyEnds
    | CloseChannel | ReleaseSlot | UntrackVisitor | CloseSocket

  datatype CloseEvent = StopListening | LockVisitors | Drain(h: Hid) | DropVisitors

  predicate Closed(p: Phase) {
    p.Draining? || p.Shut?
  }

  predicate Usable(s: State, h: Hid) {
    h in s.handlers && s.handlers[h].f in s.fwds && s.fwds[s.handlers[h].f].owner in s.counters
  }

  /** The program point each handler event starts from. */
  predicate StartsAt(pc: PC, e: HandlerEvent) {
    match e
    case Refuse => pc.Accepted?
    case TrackVisitor => pc.Accepted?
    case Load => pc.Tracked?
    case Swap => pc.Loaded?
    case OpenFails => pc.Slot?
    case OpenSucceeds => pc.Slot?
    case SetChannel => pc.Opened?
    case CopyEnds => pc.Copying?
    case CloseChannel => pc.ShutChan?
    case ReleaseSlot => pc.Release?
    case UntrackVisitor => pc.Untrack?
    case CloseSocket => pc.ShutSock?
  }

  predicate NeedsVmu(e: HandlerEvent) {
    e.TrackVisitor? || e.SetChannel? || e.UntrackVisitor?
  }

  predicate EnabledHandler(s: State, h: Hid, e: HandlerEvent) {
    && Usable(s, h)
    && StartsAt(s.handlers[h].pc, e)
    && (NeedsVmu(e) ==> !s.fwds[s.handlers[h].f].phase.Draining?)
  }

  function Goto(s: State, h: Hid, pc: PC): State
    requires h in s.handlers
  {
    s.(handlers := s.handlers[h := s.handlers[h].(pc := pc)])
  }

  /** trackVisitor, setVisitorChannel and untrackVisitor on the forward itself. */
  function TrackIn(fwd: Forward, h: Hid): Forward {
    if Closed(fwd.phase) then fwd else fwd.(visitors := fwd.visitors[h := false])
  }

  function RecordIn(fwd: Forward, h: Hid): Forward {
    if Closed(fwd.phase) || h !in fwd.visitors then fwd else fwd.(visitors := fwd.visitors[h := true])
  }

  function UntrackIn(fwd: Forward, h: Hid): Forward {
    fwd.(visitors := fwd.visitors - {h})
  }

  function ApplyHandler(s: State, h: Hid, e: HandlerEvent): State
    requires EnabledHandler(s, h, e)
  {
    var f := s.handlers[h].f;
    var fwd := s.fwds[f];
    var n := s.counters[fwd.owner];
    match e
    case Refuse => Goto(s, h, ShutSock)
    case TrackVisitor =>
      if Closed(fwd.phase) then Goto(s, h, ShutSock)
      else Goto(s, h, Tracked).(fwds := s.fwds[f := TrackIn(fwd, h)])
    case Load => if n >= s.max then Goto(s, h, Untrack) else Goto(s, h, Loaded(n))
    case Swap =>
      if n == s.handlers[h].pc.cur then Goto(s, h, Slot).(counters := s.counters[fwd.owner := n + 1])
      else Goto(s, h, Tracked)
    case OpenFails => Goto(s, h, Release)
    case OpenSucceeds => Goto(s, h, Opened).(openedChans := s.openedChans + {h})
    case SetChannel =>
      if Closed(fwd.phase) || h !in fwd.visitors then Goto(s, h, ShutChan)
      else Goto(s, h, Copying).(fwds := s.fwds[f := RecordIn(fwd, h)])
    case CopyEnds => Goto(s, h, ShutChan)
    case CloseChannel => Goto(s, h, Release).(closedChans := s.closedChans + {h})
    case ReleaseSlot => Goto(s, h, Untrack).(counters := s.counters[fwd.owner := n - 1])
    case UntrackVisitor => Goto(s, h, ShutSock).(fwds := s.fwds[f := UntrackIn(fwd, h)])
    case CloseSocket => Goto(s, h, Finished).(closedSocks := s.closedSocks + {h})
  }

  predicate EnabledClose(s: State, f: Fid, c: CloseEvent) {
    f in s.fwds &&
    match c
    case StopListening => s.fwds[f].phase.Listening?
    case LockVisitors => s.fwds[f].phase.Deaf?
    case Drain(h) => s.fwds[f].phase.Draining? && h in s.fwds[f].phase.todo && h in s.fwds[f].visitors
    case DropVisitors => s.fwds[f].phase == Draining({})
  }

  function ApplyClose(s: State, f: Fid, c: CloseEvent): State
    requires EnabledClose(s, f, c)
  {
    var fwd := s.fwds[f];
    match c
    case StopListening => s.(fwds := s.fwds[f := fwd.(phase := Deaf)])
    case LockVisitors => s.(fwds := s.fwds[f := fwd.(phase := Draining(fwd.visitors.Keys))])
    case Drain(h) =>
      s.(fwds := s.fwds[f := fwd.(phase := Draining(fwd.phase.todo - {h}))],
         closedSocks := s.closedSocks + {h},
         closedChans := if fwd.visitors[h] then s.closedChans + {h} else s.closedChans)
    case DropVisitors => s.(fwds := s.fwds[f := fwd.(phase := Shut, visitors := map[])])
  }

  predicate Enabled(s: State, a: Step) {
    match a
    case NewState(sid) => sid !in s.counters
    case CloseConn(sid) => sid in s.counters
    case NewForward(f, sid) => f !in s.fwds && sid in s.counters
    case Accept(h, f) => h !in s.handlers && f in s.fwds && s.fwds[f].phase.Listening?
    case Handle(h, e) => EnabledHandler(s, h, e)
    case CloseStep(f, c) => EnabledClose(s, f, c)
  }

  function Apply(s: State, a: Step): State
    requires Enabled(s, a)
  {
    match a
    case NewState(sid) => s.(counters := s.counters[sid := 0])
    case CloseConn(sid) => s.(closedConns := s.closedConns + {sid})
    case NewForward(f, sid) => s.(fwds := s.fwds[f := Forward(sid, Listening, map[])])
    case Accept(h, f) => s.(handlers := s.handlers[h := Handler(f, Accepted)])
    case Handle(h, e) => ApplyHandler(s, h, e)
    case CloseStep(f, c) => ApplyClose(s, f, c)
  }

  // ---------------------------------------------------------------- runs

  /** MaxVisitorConnsPerLease is positive. */
  ghost predicate Init(s: State) {
    s.max > 0 && s.counters == map[] && s.fwds == map[] && s.handlers == map[] &&
    s.closedSocks == {} && s.openedChans == {} && s.closedChans == {}
  }

  ghost predicate Feasible(s: State, tr: seq<Step>)
    decreases |tr|, 0
  {
    tr == [] || (Feasible(s, tr[..|tr| - 1]) && Enabled(Exec(s, tr[..|tr| - 1]), tr[|tr| - 1]))
  }

  ghost function Exec(s: State, tr: seq<Step>): State
    requires Feasible(s, tr)
    decreases |tr|, 1
  {
    if tr == [] then s else Apply(Exec(s, tr[..|tr| - 1]), tr[|tr| - 1])
  }

  // ---------------------------------------------------------------- invariant

  predicate HoldsSlot(pc: PC) {
    pc.Slot? || pc.Opened? || pc.Copying? || pc.ShutChan? || pc.Release?
  }

  predicate IsTracked(pc: PC) {
    pc.Tracked? || pc.Loaded? || HoldsSlot(pc) || pc.Untrack?
  }

  /** The handlers that hold one of the leaseState's visitor slots, on any forward generation. */
  ghost function Holders(s: State, sid: Sid): set<Hid> {
    set h | h in s.handlers && HoldsSlot(s.handlers[h].pc) && s.handlers[h].f in s.fwds && s.fwds[s.handlers[h].f].owner == sid
  }

  ghost predicate TypeInv(s: State) {
    && s.max > 0
    && (forall f :: f in s.fwds ==> s.fwds[f].owner in s.counters)
    && (forall h :: h in s.handlers ==> s.handlers[h].f in s.fwds)
    && (forall h :: h in s.handlers && s.handlers[h].pc.Loaded? ==> s.handlers[h].pc.cur < s.max)
  }

  ghost predicate SlotInv(s: State) {
    forall sid :: sid in s.counters ==> s.counters[sid] == |Holders(s, sid)| <= s.max
  }

  /** What the forward's state says about one of its handlers. */
  ghost predicate Reached(fwd: Forward, h: Hid, pc: PC, socks: set<Hid>, chans: set<Hid>) {
    match fwd.phase
    case Draining(todo) =>
      && (IsTracked(pc) ==> h in fwd.visitors && (h in todo || h in socks))
      && (pc.Copying? && h in fwd.visitors ==> fwd.visitors[h] && (h in todo || h in chans))
    case Shut => (IsTracked(pc) ==> h in socks) && (pc.Copying? ==> h in chans)
    case _ => (IsTracked(pc) ==> h in fwd.visitors) && (pc.Copying? && h in fwd.visitors ==> fwd.visitors[h])
  }

  ghost predicate TrackInv(s: State) {
    && (forall h :: h in s.handlers && s.handlers[h].f in s.fwds ==>
          Reached(s.fwds[s.handlers[h].f], h, s.handlers[h].pc, s.closedSocks, s.closedChans))
    && (forall f, h :: f in s.fwds && h in s.fwds[f].visitors ==>
          h in s.handlers && s.handlers[h].f == f && IsTracked(s.handlers[h].pc))
    && (forall f :: f in s.fwds && s.fwds[f].phase.Draining? ==> s.fwds[f].phase.todo <= s.fwds[f].visitors.Keys)
    && (forall h :: h in s.handlers && s.handlers[h].pc.Finished? ==> h in s.closedSocks)
  }

  /** An SSH channel that is open still has a handler on its way to closing it. */
  ghost predicate ChannelInv(s: State) {
    && s.closedSocks <= s.handlers.Keys && s.openedChans <= s.handlers.Keys && s.closedChans <= s.handlers.Keys
    && (forall h :: h in s.openedChans && h in s.handlers && h !in s.closedChans ==>
          s.handlers[h].pc.Opened? || s.handlers[h].pc.Copying? || s.handlers[h].pc.ShutChan?)
  }

  ghost predicate Inv(s: State) {
    TypeInv(s) && SlotInv(s) && TrackInv(s) && ChannelInv(s)
  }
}

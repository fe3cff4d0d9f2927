/** The data-port allocator (`lease/allocator.go`): a cyclic cursor over an inclusive
    port range and the set of ports held by leases. `busy` answers the k-th
    candidate's probe (portInUse) of one allocate call, so the answers may change
    from probe to probe and from call to call. */
module Allocator {
  import opened Wrappers

  datatype Alloc = Alloc(min: int, max: int, next: int, used: set<int>) {
    predicate Valid() {
      min <= next <= max && forall p :: p in used ==> min <= p <= max
    }

    function Span(): int {
      max - min + 1
    }

    /** The k-th port from the cursor, wrapping once. */
    function Candidate(k: int): int {
      if next + k <= max then next + k else next + k - Span()
    }

    function Free(): int {
      Span() - |used|
    }
  }

  function Fresh(min: int, max: int): Alloc {
    Alloc(min, max, min, {})
  }

  function Reserved(a: Alloc, port: int): Alloc {
    if a.min <= port <= a.max then a.(used := a.used + {port}) else a
  }

  function Released(a: Alloc, port: int): Alloc {
    a.(used := a.used - {port})
  }

  predicate Rejected(a: Alloc, busy: nat -> bool, k: nat) {
    a.Candidate(k) in a.used || busy(k)
  }

  /** The first acceptable candidate from the i-th on. */
  function FirstFrom(a: Alloc, busy: nat -> bool, i: nat): Option<nat>
    decreases a.Span() - i
  {
    if i >= a.Span() then None
    else if Rejected(a, busy, i) then FirstFrom(a, busy, i + 1)
    else Some(i)
  }

  function Choice(a: Alloc, busy: nat -> bool): Option<int> {
    match FirstFrom(a, busy, 0)
    case None => None
    case Some(k) => Some(a.Candidate(k))
  }

  function Allocated(a: Alloc, busy: nat -> bool): Alloc {
    match FirstFrom(a, busy, 0)
    case None => a
    case Some(k) => a.(next := a.Candidate(k + 1), used := a.used + {a.Candidate(k)})
  }

  // ---------------------------------------------------------------- the object

  class PortAllocator {
    const min: int
    const max: int
    var next: int
    var used: set<int>

    ghost predicate Valid()
      reads this
    {
      Abstract().Valid()
    }

    function Abstract(): Alloc
      reads this
    {
      Alloc(min, max, next, used)
    }

    constructor (min: int, max: int)
      requires min <= max
      ensures Valid() && Abstract() == Fresh(min, max)
      ensures this.min == min && this.max == max && next == min && used == {}
    {
      this.min, this.max := min, max;
      next, used := min, {};
    }

    method Reserve(port: int)
      requires Valid()
      modifies this
      ensures Valid() && Abstract() == Reserved(old(Abstract()), port)
      ensures next == old(next) && used == old(used) + if min <= port <= max then {port} else {}
    {
      if port >= min && port <= max {
        used := used + {port};
      }
    }

    method Release(port: int)
      requires Valid()
      modifies this
      ensures Valid() && Abstract() == Released(old(Abstract()), port)
      ensures next == old(next) && used == old(used) - {port}
    {
      used := used - {port};
    }

    method Free() returns (n: int)
      requires Valid()
      ensures n == Abstract().Free() == max - min + 1 - |used|
      ensures 0 <= n <= max - min + 1
    {
      RangeBoundsCardinality(used, min, max + 1);
      return max - min + 1 - |used|;
    }

    method Allocate(busy: nat -> bool) returns (r: Option<int>)
      requires Valid()
      modifies this
      ensures Valid() && Abstract() == Allocated(old(Abstract()), busy)
      ensures r == Choice(old(Abstract()), busy)
    {
      ghost var a := Abstract();
      var span := max - min + 1;
      var i: nat := 0;
      while i < span
        invariant 0 <= i <= span && Valid()
        invariant used == a.used && next == a.Candidate(i)
        invariant FirstFrom(a, busy, 0) == FirstFrom(a, busy, i)
      {
        var port := next;
        next := next + 1;
        if next > max {
          next := min;
        }
        if port !in used && !busy(i) {
          used := used + {port};
          return Some(port);
        }
        i := i + 1;
      }
      return None;
    }
  }

  // ---------------------------------------------------------------- one call

  lemma {:induction false} FirstFromIsFirst(a: Alloc, busy: nat -> bool, i: nat)
    ensures
      match FirstFrom(a, busy, i)
      case None => forall j: nat :: i <= j < a.Span() ==> Rejected(a, busy, j)
      case Some(k) => i <= k < a.Span() && !Rejected(a, busy, k) && forall j: nat :: i <= j < k ==> Rejected(a, busy, j)
    decreases a.Span() - i
  {
    if i < a.Span() && Rejected(a, busy, i) {
      FirstFromIsFirst(a, busy, i + 1);
    }
  }

  /** The scan visits every port of the range exactly once. */
  lemma ScanVisitsEachPortOnce(a: Alloc, p: int)
    requires a.Valid() && a.min <= p <= a.max
    ensures exists k: nat :: k < a.Span() && a.Candidate(k) == p
    ensures forall j, k :: 0 <= j < a.Span() && 0 <= k < a.Span() && a.Candidate(j) == a.Candidate(k) ==> j == k
    ensures forall k :: 0 <= k <= a.Span() ==> a.min <= a.Candidate(k) <= a.max
  {
    var k: nat := if p >= a.next then p - a.next else p - a.next + a.Span();
    assert a.Candidate(k) == p;
  }

  /** A granted port is a free port of the range that did not answer its probe, everything
      cyclically before it was held or busy, and the cursor moves just past it; a refusal
      means every port of the range was held or busy. */
  lemma AllocateIsCyclicallyFirst(a: Alloc, busy: nat -> bool)
    requires a.Valid()
    ensures Allocated(a, busy).Valid()
    ensures
      match Choice(a, busy)
      case None =>
        && Allocated(a, busy) == a
        && forall p :: a.min <= p <= a.max ==> p in a.used || exists k: nat :: k < a.Span() && a.Candidate(k) == p && busy(k)
      case Some(p) =>
        && a.min <= p <= a.max && p !in a.used && Allocated(a, busy).used == a.used + {p}
        && exists k: nat :: k < a.Span() && a.Candidate(k) == p && !busy(k)
             && Allocated(a, busy).next == (if p == a.max then a.min else p + 1)
             && forall j: nat :: j < k ==> a.Candidate(j) in a.used || busy(j)
  {
    FirstFromIsFirst(a, busy, 0);
    if FirstFrom(a, busy, 0).None? {
      forall p | a.min <= p <= a.max
        ensures p in a.used || exists k: nat :: k < a.Span() && a.Candidate(k) == p && busy(k)
      {
        ScanVisitsEachPortOnce(a, p);
        var k: nat :| k < a.Span() && a.Candidate(k) == p;
        assert Rejected(a, busy, k);
      }
    } else {
      var k := FirstFrom(a, busy, 0).value;
      forall j: nat | j < k ensures a.Candidate(j) in a.used || busy(j) {
        assert Rejected(a, busy, j);
      }
      assert !Rejected(a, busy, k) && a.Candidate(k) == Choice(a, busy).value;
    }
  }

  /** A held port is never probed: the answers for held ports cannot influence the outcome. */
  lemma {:induction false} HeldPortsAreNotProbed(a: Alloc, b1: nat -> bool, b2: nat -> bool, i: nat)
    requires forall k: nat :: a.Candidate(k) !in a.used ==> b1(k) == b2(k)
    ensures FirstFrom(a, b1, i) == FirstFrom(a, b2, i)
    decreases a.Span() - i
  {
    if i < a.Span() {
      HeldPortsAreNotProbed(a, b1, b2, i + 1);
    }
  }

  // ---------------------------------------------------------------- runs

  datatype Op = OpAllocate(busy: nat -> bool) | OpRelease(port: int) | OpReserve(port: int)

  ghost function Do(a: Alloc, op: Op): Alloc {
    match op
    case OpAllocate(busy) => Allocated(a, busy)
    case OpRelease(port) => Released(a, port)
    case OpReserve(port) => Reserved(a, port)
  }

  ghost function After(a: Alloc, ops: seq<Op>): Alloc {
    if ops == [] then a else Do(After(a, ops[..|ops| - 1]), ops[|ops| - 1])
  }

  /** The port granted by step m of the run, if it is an allocate call that succeeds. */
  ghost function Grant(a: Alloc, ops: seq<Op>, m: nat): Option<int>
    requires m < |ops|
  {
    if ops[m].OpAllocate? then Choice(After(a, ops[..m]), ops[m].busy) else None
  }

  /** How many candidates step m of the run looks at. */
  ghost function Looks(a: Alloc, op: Op): int {
    if !op.OpAllocate? then 0
    else match FirstFrom(a, op.busy, 0)
      case None => a.Span()
      case Some(k) => k + 1
  }

  /** Step m of the run moves the cursor over port p. */
  ghost predicate Passes(a: Alloc, ops: seq<Op>, m: nat, p: int)
    requires m < |ops|
  {
    exists k: nat :: k < Looks(After(a, ops[..m]), ops[m]) && After(a, ops[..m]).Candidate(k) == p
  }

  lemma {:induction false} ValidRun(a: Alloc, ops: seq<Op>)
    requires a.Valid()
    ensures After(a, ops).Valid() && After(a, ops).min == a.min && After(a, ops).max == a.max
  {
    if ops != [] {
      var n := |ops| - 1;
      ValidRun(a, ops[..n]);
      if ops[n].OpAllocate? {
        AllocateIsCyclicallyFirst(After(a, ops[..n]), ops[n].busy);
      }
    }
  }

  /** Steps from port x forward to port y. */
  function Distance(a: Alloc, x: int, y: int): int {
    if y >= x then y - x else y - x + a.Span()
  }

  /** One step looks at q, or leaves the cursor at most as far from the starting point as q. */
  lemma CursorStep(s: Alloc, op: Op, from: int, q: int)
    requires s.Valid() && s.min <= q <= s.max && s.min <= from <= s.max
    requires Distance(s, from, q) >= Distance(s, from, s.next)
    ensures
      || (exists k: nat :: k < Looks(s, op) && s.Candidate(k) == q)
      || Distance(s, from, q) >= Distance(s, from, Do(s, op).next)
  {
    var k: nat := Distance(s, s.next, q);
    assert s.Candidate(k) == q && k < s.Span();
    if k >= Looks(s, op) && op.OpAllocate? {
      FirstFromIsFirst(s, op.busy, 0);
    }
  }

  lemma AfterStep(a: Alloc, ops: seq<Op>, n: nat)
    requires n < |ops|
    ensures After(a, ops[..n + 1]) == Do(After(a, ops[..n]), ops[n])
  {
    assert ops[..n + 1][..n] == ops[..n];
  }

  function Past(a: Alloc, p: int): int {
    if p == a.max then a.min else p + 1
  }

  lemma GrantMovesCursor(a: Alloc, ops: seq<Op>, i: nat, p: int)
    requires a.Valid() && i < |ops| && Grant(a, ops, i) == Some(p)
    ensures After(a, ops[..i + 1]).next == Past(a, p) && a.min <= p <= a.max
  {
    ValidRun(a, ops[..i]);
    AfterStep(a, ops, i);
    AllocateIsCyclicallyFirst(After(a, ops[..i]), ops[i].busy);
  }

  /** Some step after i and before n moves the cursor over q. */
  ghost predicate PassedIn(a: Alloc, ops: seq<Op>, i: nat, n: nat, q: int)
    requires n <= |ops|
  {
    exists m: nat :: i < m < n && Passes(a, ops, m, q)
  }

  /** From just past p on, the cursor of s has not gone beyond q. */
  predicate Before(s: Alloc, p: int, q: int) {
    Distance(s, Past(s, p), q) >= Distance(s, Past(s, p), s.next)
  }

  lemma PassedStep(a: Alloc, ops: seq<Op>, i: nat, n: nat, p: int, q: int)
    requires a.Valid() && i < n < |ops| && a.min <= p <= a.max && a.min <= q <= a.max && Before(After(a, ops[..n]), p, q)
    ensures Passes(a, ops, n, q) || Before(After(a, ops[..n + 1]), p, q)
  {
    ValidRun(a, ops[..n]);
    ValidRun(a, ops[..n + 1]);
    AfterStep(a, ops, n);
    CursorStep(After(a, ops[..n]), ops[n], Past(a, p), q);
  }

  /** Since step i, which left the cursor just past p, either q has been passed or the cursor has
      not yet reached it. */
  lemma {:induction false} PassedSince(a: Alloc, ops: seq<Op>, i: nat, n: nat, p: int, q: int)
    requires a.Valid() && i < n <= |ops| && Grant(a, ops, i) == Some(p) && a.min <= q <= a.max
    ensures a.min <= p <= a.max && (PassedIn(a, ops, i, n, q) || Before(After(a, ops[..n]), p, q))
    decreases n
  {
    GrantMovesCursor(a, ops, i, p);
    ValidRun(a, ops[..i + 1]);
    if n > i + 1 {
      var l := n - 1;
      PassedSince(a, ops, i, l, p, q);
      if m: nat :| i < m < l && Passes(a, ops, m, q) {
        assert PassedIn(a, ops, i, n, q);
      } else {
        PassedStep(a, ops, i, l, p, q);
      }
    }
  }

  /** Round robin: between two grants of the same port the cursor has passed every port. */
  lemma PortsAreReusedLast(a: Alloc, ops: seq<Op>, i: nat, j: nat, p: int, q: int)
    requires a.Valid() && i < j < |ops| && Grant(a, ops, i) == Some(p) && Grant(a, ops, j) == Some(p)
    requires a.min <= q <= a.max
    ensures PassedIn(a, ops, i, j + 1, q)
  {
    var s := After(a, ops[..j]);
    ValidRun(a, ops[..j]);
    PassedSince(a, ops, i, j, p, q);
    if m: nat :| i < m < j && Passes(a, ops, m, q) {
    } else {
      FirstFromIsFirst(s, ops[j].busy, 0);
      var k := FirstFrom(s, ops[j].busy, 0).value;
      var d: nat := Distance(s, s.next, q);
      assert s.Candidate(d) == q && d <= k;
      assert Passes(a, ops, j, q);
    }
  }
}

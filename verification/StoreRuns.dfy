/** Whole histories of the store: calls, failed transactions, crashes in the middle of a
    call, and restarts with possibly another port range. */
module StoreRuns {
  import opened Wrappers
  import opened StoreModel

  /** A completed call, or one that a crash cut short after k micro-steps, followed by the
      next successful Open. A plain restart is a crash with k == 0. */
  datatype Event =
    | Do(r: Request)
    | Crash(r: Request, k: nat, min: int, max: int, now: int)

  ghost predicate Enabled(s: State, e: Event) {
    FreshToken(s, e.r) && (e.Crash? ==> e.k < |Micros(s, e.r)| && e.min <= e.max)
  }

  /** The last micro-state of the call that happened. */
  ghost function Reached(s: State, e: Event): State
    requires Enabled(s, e)
  {
    if e.Do? then Final(s, e.r) else Micros(s, e.r)[e.k]
  }

  ghost function Apply(s: State, e: Event): State
    requires Enabled(s, e)
  {
    if e.Do? then Reached(s, e) else Reopen(Reached(s, e).disk, e.min, e.max, e.now)
  }

  ghost predicate Feasible(s: State, evs: seq<Event>)
    decreases |evs|, 0
  {
    evs == [] || (Feasible(s, evs[..|evs| - 1]) && Enabled(After(s, evs[..|evs| - 1]), evs[|evs| - 1]))
  }

  ghost function After(s: State, evs: seq<Event>): State
    requires Feasible(s, evs)
    decreases |evs|, 1
  {
    if evs == [] then s else Apply(After(s, evs[..|evs| - 1]), evs[|evs| - 1])
  }

  // ---------------------------------------------------------------- crashes

  /** The leases a restart at `now` with the given range would keep. */
  ghost function Surviving(leases: map<Id, Record>, min: int, max: int, now: int): map<Id, Record> {
    map i | i in leases && now < leases[i].expires && min <= leases[i].port <= max :: leases[i]
  }

  /** At every micro-step the disk is what it was before the call or what it is after it. */
  lemma DiskIsOldOrNew(s: State, r: Request, k: nat)
    requires k < |Micros(s, r)|
    ensures Micros(s, r)[k].disk == s.disk || Micros(s, r)[k].disk == Final(s, r).disk
  {
  }

  lemma KeptRows(leases: map<Id, Record>, min: int, max: int, now: int)
    requires forall i :: i in leases ==> leases[i].status == Active
    ensures Kept(Rows(leases), min, max, now) == Surviving(leases, min, max, now)
  {
  }

  lemma ReopenKeepsLeases(s: State, min: int, max: int, now: int)
    requires Good(s)
    ensures Reopen(s.disk, min, max, now).byID == Surviving(s.byID, min, max, now)
  {
    KeptRows(s.byID, min, max, now);
  }

  /** Stopping a call after any micro-step and reopening, at any time and with any range,
      gives the store one would get by reopening before the call or after it: the leases
      of that moment that are unexpired and in range, never two on a port. */
  lemma CrashIsAtomic(s: State, r: Request, k: nat, min: int, max: int, now: int)
    requires Good(s) && FreshToken(s, r) && k < |Micros(s, r)| && min <= max
    ensures
      var crashed := Reopen(Micros(s, r)[k].disk, min, max, now);
      && Good(crashed)
      && (|| (crashed == Reopen(s.disk, min, max, now) && crashed.byID == Surviving(s.byID, min, max, now))
          || (crashed == Reopen(Final(s, r).disk, min, max, now) && crashed.byID == Surviving(Final(s, r).byID, min, max, now)))
  {
    DiskIsOldOrNew(s, r, k);
    RequestKeepsGood(s, r);
    GoodDisk(s);
    GoodDisk(Final(s, r));
    ReopenKeepsLeases(s, min, max, now);
    ReopenKeepsLeases(Final(s, r), min, max, now);
    ReopenIsGood(Micros(s, r)[k].disk, min, max, now);
  }

  /** Open prunes in one transaction; whether or not a crash keeps it from committing, the next
      Open yields the same store. */
  lemma OpenIsCrashSafe(disk: map<Id, Row>, min: int, max: int, now: int, later: int)
    requires now <= later
    ensures Reopen(Reopen(disk, min, max, now).disk, min, max, later) == Reopen(disk, min, max, later)
  {
    assert Kept(Reopen(disk, min, max, now).disk, min, max, later) == Kept(disk, min, max, later);
  }

  // ---------------------------------------------------------------- every history

  lemma EventKeepsGood(s: State, e: Event)
    requires Good(s) && Enabled(s, e)
    ensures Good(Apply(s, e))
  {
    RequestKeepsGood(s, e.r);
    if e.Crash? {
      CrashIsAtomic(s, e.r, e.k, e.min, e.max, e.now);
    }
  }

  lemma {:induction false} HistoryKeepsGood(s: State, evs: seq<Event>)
    requires Good(s) && Feasible(s, evs)
    ensures Good(After(s, evs))
  {
    if evs != [] {
      HistoryKeepsGood(s, evs[..|evs| - 1]);
      EventKeepsGood(After(s, evs[..|evs| - 1]), evs[|evs| - 1]);
    }
  }

  lemma {:induction false} PortsCountLeases(m: map<Id, Record>)
    requires Distinct(m)
    ensures |Ports(m)| == |m|
    decreases |m|
  {
    if m == map[] {
      assert Ports(m) == {};
    } else {
      var id :| id in m;
      var rest := m - {id};
      assert rest.Keys == m.Keys - {id};
      PortsCountLeases(rest);
      PortsDelete(m, id);
      assert m[id].port in Ports(m);
    }
  }

  /** Starting from an empty database, after any history the health counters add up to the
      range, every lease has its own port in the range, and a restart would lose nothing. */
  lemma HealthAddsUp(min: int, max: int, now: int, evs: seq<Event>)
    requires min <= max
    requires Feasible(Reopen(map[], min, max, now), evs)
    ensures
      var s := After(Reopen(map[], min, max, now), evs);
      && |s.byID| + s.alloc.Free() == s.alloc.max - s.alloc.min + 1
      && (forall i :: i in s.byID ==> s.alloc.min <= s.byID[i].port <= s.alloc.max)
      && (forall i, j :: i in s.byID && j in s.byID && i != j ==> s.byID[i].port != s.byID[j].port)
      && s.alloc.used == Ports(s.byID)
      && s.disk == Rows(s.byID)
  {
    ReopenIsGood(map[], min, max, now);
    HistoryKeepsGood(Reopen(map[], min, max, now), evs);
    var s := After(Reopen(map[], min, max, now), evs);
    PortsCountLeases(s.byID);
    forall i | i in s.byID ensures s.alloc.min <= s.byID[i].port <= s.alloc.max {
      assert s.byID[i].port in Ports(s.byID);
    }
  }

  // ---------------------------------------------------------------- tokens

  function ByToken(s: State, t: Token): Option<Record> {
    if t in s.byToken && s.byToken[t] in s.byID then Some(s.byID[s.byToken[t]]) else None
  }

  /** After any history a token finds exactly the one live lease that holds it, with its
      current expiry, and finds nothing if no live lease holds it. */
  lemma TokenFindsItsLease(s: State, evs: seq<Event>, t: Token, l: Record)
    requires Good(s) && Feasible(s, evs)
    ensures ByToken(After(s, evs), t) == Some(l) <==>
      l.token == t && l.id in After(s, evs).byID && After(s, evs).byID[l.id] == l
  {
    HistoryKeepsGood(s, evs);
  }

  /** Create does not check for token collisions: a create that goes through keeps the indexes
      exact if and only if its token is not in use. */
  lemma CreateNeedsFreshToken(s: State, r: Request)
    requires Good(s) && Creates(s, r)
    ensures Good(Final(s, r)) <==> r.mint.value !in s.byToken
  {
    if r.mint.value in s.byToken {
      var holder := s.byToken[r.mint.value];
      var s' := Final(s, r);
      assert holder in s'.byID && s'.byID[holder].token == r.mint.value && s'.byToken[r.mint.value] != holder;
    } else {
      RequestKeepsGood(s, r);
    }
  }

  // ---------------------------------------------------------------- paid time

  /** When the current lease of an id began, the time bought for it since, and its terms. */
  datatype Account = Account(since: int, paid: int, token: Option<Token>, allow: seq<string>)

  /** The event changed the row of its lease on disk. */
  ghost predicate Persisted(s: State, e: Event)
    requires Enabled(s, e)
  {
    Reached(s, e).disk != s.disk
  }

  /** The books: a persisted create opens the account with its duration and its terms, a
      persisted extend adds its own duration; retried creates, failed transactions and restarts add nothing. */
  ghost function Books(s: State, evs: seq<Event>, id: Id): Account
    requires Feasible(s, evs)
    decreases |evs|
  {
    if evs == [] then
      if id in s.byID then Account(s.byID[id].created, s.byID[id].expires - s.byID[id].created, Some(s.byID[id].token), s.byID[id].allow)
      else Account(0, 0, None, [])
    else
      var n := |evs| - 1;
      var before := Books(s, evs[..n], id);
      if evs[n].r.id != id || !Persisted(After(s, evs[..n]), evs[n]) then before
      else match evs[n].r
        case Create(_, dur, allow, _, _, mint, now, _) => Account(now, dur, mint, allow)
        case Extend(_, dur, _) => before.(paid := before.paid + dur)
        case _ => before
  }

  ghost predicate Billed(s: State, id: Id, a: Account) {
    id in s.byID ==>
      && s.byID[id].created == a.since && s.byID[id].expires == a.since + a.paid
      && Some(s.byID[id].token) == a.token && s.byID[id].allow == a.allow
  }

  lemma BilledReopen(s: State, id: Id, a: Account, min: int, max: int, now: int)
    requires Billed(s, id, a) && s.disk == Rows(s.byID)
    ensures Billed(Reopen(s.disk, min, max, now), id, a)
  {
  }

  /** What a completed call does to the account of `id`. */
  lemma BilledRequest(s: State, r: Request, id: Id, a: Account)
    requires Good(s) && FreshToken(s, r) && Billed(s, id, a)
    ensures
      var s' := Final(s, r);
      Billed(s', id,
        if r.id != id || s'.disk == s.disk then a
        else if r.Create? then Account(r.now, r.dur, r.mint, r.allow)
        else if r.Extend? then a.(paid := a.paid + r.dur)
        else a)
  {
    var s' := Final(s, r);
    if Creates(s, r) {
      assert r.id !in s.disk && r.id in s'.disk;
    } else if r.Extend? && r.id in s.byID {
      assert s.disk[r.id] == Row(s.byID[r.id]);
      assert r.commit ==> s'.disk[r.id] == Row(s'.byID[r.id]);
    }
  }

  /** Paid time is conserved: after any history a live lease expires exactly as long after its
      creation as was bought by its persisted create and extends. */
  lemma {:induction false} PaidTimeIsConserved(s: State, evs: seq<Event>, id: Id)
    requires Good(s) && Feasible(s, evs)
    ensures Billed(After(s, evs), id, Books(s, evs, id))
  {
    if evs != [] {
      var n := |evs| - 1;
      PaidTimeIsConserved(s, evs[..n], id);
      HistoryKeepsGood(s, evs[..n]);
      var s1, e := After(s, evs[..n]), evs[n];
      BilledRequest(s1, e.r, id, Books(s, evs[..n], id));
      if e.Crash? {
        RequestKeepsGood(s1, e.r);
        DiskIsOldOrNew(s1, e.r, e.k);
        BilledReopen(if Persisted(s1, e) then Final(s1, e.r) else s1, id, Books(s, evs, id), e.min, e.max, e.now);
      }
    }
  }

  /** Nobody gets another allowlist or token than was asked for: after any history a live lease
      has those of the persisted create that opened its account. */
  lemma TermsAreKept(s: State, evs: seq<Event>, id: Id)
    requires Good(s) && Feasible(s, evs) && id in After(s, evs).byID
    ensures
      var l, a := After(s, evs).byID[id], Books(s, evs, id);
      l.id == id && a.token == Some(l.token) && l.allow == a.allow && l.created == a.since
  {
    PaidTimeIsConserved(s, evs, id);
    HistoryKeepsGood(s, evs);
  }
}

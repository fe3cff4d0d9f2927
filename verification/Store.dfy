/** The lease store as an object: two maps that share lease objects, the allocator, and
    the disk. Each method is proved to do what `StoreModel` says the call does, so every
    result about histories holds of it. Store.mu makes each method one atomic call. */
module Store {
  import opened Wrappers
  import opened Allocator
  import opened StoreModel
  import StoreRuns

  datatype Reply =
    | Ok(l: Record)
    | ErrNotFound
    | ErrInvalidCIDR
    | ErrPortsExhausted
    | ErrMint
    | ErrPersist

  class Lease {
    const id: Id
    const token: Token
    const port: int
    const allow: seq<string>
    const created: int
    var expires: int
    const status: Status

    constructor (l: Record)
      ensures Rec() == l
    {
      id, token, port, allow, created, expires, status := l.id, l.token, l.port, l.allow, l.created, l.expires, l.status;
    }

    function Rec(): Record
      reads this
    {
      Record(id, token, port, allow, created, expires, status)
    }
  }

  ghost predicate AllParse(allow: seq<string>, parse: string -> bool) {
    forall c :: c in allow ==> parse(c)
  }

  /** Exactly the ids that have expired by now, each once. */
  ghost predicate ListsExpired(ids: seq<Id>, leases: map<Id, Record>, now: int) {
    && (forall id :: id in ids <==> id in leases && leases[id].expires <= now)
    && (forall i, j :: 0 <= i < j < |ids| ==> ids[i] != ids[j])
  }

  /** Every object is filed under its own id, and under its own token where it is indexed. */
  ghost predicate Shares(byID: map<Id, Lease>, byToken: map<Token, Lease>) {
    && (forall i :: i in byID ==> byID[i].id == i)
    && (forall t :: t in byToken ==> byToken[t].token == t && byToken[t].id in byID && byID[byToken[t].id] == byToken[t])
  }

  lemma SharesWith(byID: map<Id, Lease>, byToken: map<Token, Lease>, o: Lease)
    requires Shares(byID, byToken) && o.id !in byID
    ensures Shares(byID[o.id := o], byToken[o.token := o])
  {
  }

  lemma SharesWithout(byID: map<Id, Lease>, byToken: map<Token, Lease>, id: Id)
    requires Shares(byID, byToken) && id in byID
    ensures Shares(byID - {id}, byToken - {byID[id].token})
  {
  }

  /** The reply to a create that has to provision its lease, by what went wrong first. */
  function ProvisionReply(port: Option<int>, id: Id, dur: int, allow: seq<string>, mint: Option<Token>, now: int, commit: bool): Reply {
    if port.None? then ErrPortsExhausted
    else if mint.None? then ErrMint
    else if !commit then ErrPersist
    else Ok(Record(id, mint.value, port.value, allow, now, now + dur, Active))
  }

  /** The port that was taken is free again, but the cursor has moved past it. */
  ghost predicate PortReturned(a: Alloc, a': Alloc, busy: nat -> bool) {
    && Choice(a, busy).Some? && a'.used == a.used
    && a'.next == if Choice(a, busy).value == a.max then a.min else Choice(a, busy).value + 1
  }

  lemma ReleaseReturnsPort(a: Alloc, busy: nat -> bool)
    requires a.Valid() && Choice(a, busy).Some?
    ensures PortReturned(a, Released(Allocated(a, busy), Choice(a, busy).value), busy)
  {
    AllocateIsCyclicallyFirst(a, busy);
    assert a.used + {Choice(a, busy).value} - {Choice(a, busy).value} == a.used;
  }

  class LeaseStore {
    var byID: map<Id, Lease>
    var byToken: map<Token, Lease>
    const alloc: PortAllocator
    var disk: map<Id, Row>

    ghost function Leases(): map<Id, Record>
      reads this, byID.Values
    {
      map i | i in byID :: byID[i].Rec()
    }

    ghost function Index(): map<Token, Id>
      reads this
    {
      map t | t in byToken :: byToken[t].id
    }

    ghost function Abstract(): State
      reads this, alloc, byID.Values
    {
      State(Leases(), Index(), alloc.Abstract(), disk)
    }

    /** Both maps point at the same object for a lease. */
    ghost predicate Shared()
      reads this
    {
      Shares(byID, byToken)
    }

    ghost predicate Valid()
      reads this, alloc, byID.Values
    {
      Shared() && Good(Abstract())
    }

    constructor (byID: map<Id, Lease>, byToken: map<Token, Lease>, alloc: PortAllocator, disk: map<Id, Row>)
      ensures this.byID == byID && this.byToken == byToken && this.alloc == alloc && this.disk == disk
    {
      this.byID, this.byToken, this.alloc, this.disk := byID, byToken, alloc, disk;
    }

    method Get(id: Id) returns (r: Option<Record>)
      requires Valid()
      ensures r == if id in Abstract().byID then Some(Abstract().byID[id]) else None
    {
      if id !in byID {
        return None;
      }
      return Some(byID[id].Rec());
    }

    /** Finds the one live lease that holds the token, with its current expiry. */
    method ByToken(token: Token) returns (r: Option<Record>)
      requires Valid()
      ensures forall l :: r == Some(l) <==> l.token == token && l.id in Abstract().byID && Abstract().byID[l.id] == l
    {
      if token !in byToken {
        return None;
      }
      assert Abstract().byToken[token] == byToken[token].id;
      if byToken[token].token != token {
        return None;
      }
      return Some(byToken[token].Rec());
    }

    method Stats() returns (active: nat, freePorts: int)
      requires Valid()
      ensures active == |Abstract().byID|
      ensures active + freePorts == alloc.max - alloc.min + 1
    {
      assert Abstract().byID.Keys == byID.Keys;
      StoreRuns.PortsCountLeases(Abstract().byID);
      freePorts := alloc.Free();
      return |byID|, freePorts;
    }

    method CheckAllowlist(allow: seq<string>, parse: string -> bool) returns (ok: bool)
      ensures ok <==> AllParse(allow, parse)
    {
      for i := 0 to |allow|
        invariant forall j :: 0 <= j < i ==> parse(allow[j])
      {
        if !parse(allow[i]) {
          return false;
        }
      }
      return true;
    }

    /** Puts one object into both maps. */
    method Link(o: Lease)
      requires Shared() && o.id !in byID && o.token !in byToken
      modifies this`byID, this`byToken
      ensures Shared() && Leases() == old(Leases())[o.id := o.Rec()] && Index() == old(Index())[o.token := o.id]
    {
      SharesWith(byID, byToken, o);
      byID := byID[o.id := o];
      byToken := byToken[o.token := o];
    }

    /** Takes one object out of both maps. */
    method Unlink(o: Lease)
      requires Shared() && o.id in byID && byID[o.id] == o
      modifies this`byID, this`byToken
      ensures Shared() && Leases() == old(Leases()) - {o.id} && Index() == old(Index()) - {o.token}
    {
      SharesWithout(byID, byToken, o.id);
      byID := byID - {o.id};
      byToken := byToken - {o.token};
    }

    /** The row goes to disk first, then one new object into both maps. */
    method Insert(l: Record)
      requires Shared() && l.id !in byID && l.token !in byToken
      modifies this
      ensures Shared() && Leases() == old(Leases())[l.id := l]
      ensures Index() == old(Index())[l.token := l.id] && disk == old(disk)[l.id := Row(l)]
    {
      var o := new Lease(l);
      disk := disk[l.id := Row(l)];
      assert Leases() == old(Leases()) && Index() == old(Index());
      Link(o);
    }

    /** The part of Create that touches state: allocate, mint, persist, index; the port goes
        back when minting or persisting fails. */
    method Provision(id: Id, dur: int, allow: seq<string>, busy: nat -> bool, mint: Option<Token>, now: int, commit: bool)
      returns (r: Reply)
      requires Shared() && alloc.Valid() && id !in byID && (mint.Some? ==> mint.value !in byToken)
      modifies this, alloc
      ensures Shared()
      ensures Abstract() == Created(old(Abstract()), StoreModel.Create(id, dur, allow, true, busy, mint, now, commit))
      ensures r.Ok? <==> id in Leases()
      ensures r.Ok? ==> r.l == Leases()[id]
      ensures r == ProvisionReply(Choice(old(alloc.Abstract()), busy), id, dur, allow, mint, now, commit)
      ensures r.ErrMint? || r.ErrPersist? ==> PortReturned(old(alloc.Abstract()), alloc.Abstract(), busy)
      ensures r.ErrPortsExhausted? ==> alloc.Abstract() == old(alloc.Abstract())
    {
      var port := alloc.Allocate(busy);
      assert Leases() == old(Leases()) && Index() == old(Index());
      if port.None? {
        return ErrPortsExhausted;
      }
      if mint.None? {
        alloc.Release(port.value);
        ReleaseReturnsPort(old(alloc.Abstract()), busy);
        return ErrMint;
      }
      if !commit {
        alloc.Release(port.value);
        ReleaseReturnsPort(old(alloc.Abstract()), busy);
        return ErrPersist;
      }
      var l := Record(id, mint.value, port.value, allow, now, now + dur, Active);
      Insert(l);
      return Ok(l);
    }

    /** Returns an existing lease unchanged, refuses a malformed allowlist before it takes a
        port, and otherwise provisions the lease. */
    method Create(id: Id, dur: int, allow: seq<string>, parse: string -> bool, busy: nat -> bool,
                  mint: Option<Token>, now: int, commit: bool) returns (r: Reply)
      requires Valid() && (mint.Some? ==> mint.value !in byToken)
      modifies this, alloc
      ensures Valid()
      ensures Abstract() ==
        Final(old(Abstract()), StoreModel.Create(id, dur, allow, AllParse(allow, parse), busy, mint, now, commit))
      ensures r.Ok? <==> id in Leases()
      ensures r.Ok? ==> r.l == Leases()[id]
      ensures r ==
        if id in old(Leases()) then Ok(old(Leases())[id])
        else if !AllParse(allow, parse) then ErrInvalidCIDR
        else ProvisionReply(Choice(old(alloc.Abstract()), busy), id, dur, allow, mint, now, commit)
      ensures r.Ok? && id !in old(Leases()) ==>
        r.l.allow == allow && mint == Some(r.l.token) && r.l.created == now && r.l.expires == now + dur
      ensures r.ErrMint? || r.ErrPersist? ==> PortReturned(old(alloc.Abstract()), alloc.Abstract(), busy)
      ensures r.ErrInvalidCIDR? || r.ErrPortsExhausted? ==> alloc.Abstract() == old(alloc.Abstract())
    {
      if id in byID {
        return Ok(byID[id].Rec());
      }
      var parses := CheckAllowlist(allow, parse);
      if !parses {
        return ErrInvalidCIDR;
      }
      CreateOutcome(Abstract(), StoreModel.Create(id, dur, allow, true, busy, mint, now, commit));
      r := Provision(id, dur, allow, busy, mint, now, commit);
    }

    /** Moves the expiry of the object both maps share, after the row is on disk. */
    method Prolong(id: Id, dur: int)
      requires Shared() && id in byID
      modifies this, byID[id]
      ensures Shared() && byID == old(byID) && byToken == old(byToken)
      ensures Abstract() == Extended(old(Abstract()), id, dur)
    {
      var l := byID[id];
      var updated := l.Rec().(expires := l.expires + dur);
      disk := disk[id := Row(updated)];
      l.expires := updated.expires;
    }

    method Extend(id: Id, dur: int, commit: bool) returns (r: Reply)
      requires Valid()
      modifies this, byID.Values
      ensures Valid() && byID == old(byID) && byToken == old(byToken)
      ensures Abstract() == Final(old(Abstract()), StoreModel.Extend(id, dur, commit))
      ensures r == if id !in Leases() then ErrNotFound else if !commit then ErrPersist else Ok(Leases()[id])
    {
      if id !in byID {
        return ErrNotFound;
      }
      if !commit {
        return ErrPersist;
      }
      ExtendOutcome(Abstract(), id, dur);
      Prolong(id, dur);
      return Ok(byID[id].Rec());
    }

    /** The row first, then both maps, then the port. */
    method Drop(id: Id)
      requires Shared() && alloc.Valid() && id in byID
      modifies this, alloc
      ensures Shared()
      ensures Abstract() == Removed(old(Abstract()), id)
    {
      var l := byID[id];
      disk := disk - {id};
      assert Leases() == old(Leases()) && Index() == old(Index());
      Unlink(l);
      alloc.Release(l.port);
    }

    /** Revoke and MarkExpired; without a commit nothing changes in memory either. */
    method Delete(id: Id, commit: bool) returns (r: Option<Reply>)
      requires Valid()
      modifies this, alloc
      ensures Valid() && Abstract() == Final(old(Abstract()), Remove(id, commit))
      ensures Leases() == if r.None? then old(Leases()) - {id} else old(Leases())
      ensures r == if id !in old(Leases()) then Some(ErrNotFound) else if !commit then Some(ErrPersist) else None
    {
      if id !in byID {
        return Some(ErrNotFound);
      }
      if !commit {
        return Some(ErrPersist);
      }
      RemoveOutcome(Abstract(), id);
      Drop(id);
      return None;
    }

    /** Re-checks the expiry and deletes only a lease that still expires by the cutoff; tells a
        failed delete of an expired lease apart from a renewed or unknown one. */
    method MarkExpiredIfBefore(id: Id, cutoff: int, commit: bool) returns (wasExpired: bool, removed: bool)
      requires Valid()
      modifies this, alloc
      ensures Valid() && Abstract() == Final(old(Abstract()), RemoveIfBefore(id, cutoff, commit))
      ensures Leases() == if removed then old(Leases()) - {id} else old(Leases())
      ensures wasExpired <==> id in old(Leases()) && old(Leases())[id].expires <= cutoff
      ensures removed <==> wasExpired && commit
    {
      if id !in byID {
        return false, false;
      }
      if byID[id].expires > cutoff {
        return false, false;
      }
      RemoveIfBeforeOutcome(Abstract(), id, cutoff, commit);
      var err := Delete(id, commit);
      return true, err.None?;
    }

    method ExpiredBefore(now: int) returns (ids: seq<Id>)
      requires Valid()
      ensures ListsExpired(ids, Leases(), now)
    {
      ids := [];
      var todo := byID.Keys;
      while todo != {}
        invariant todo <= byID.Keys
        invariant forall id :: id in ids <==> id in byID && id !in todo && byID[id].expires <= now
        invariant forall i, j :: 0 <= i < j < |ids| ==> ids[i] != ids[j]
        decreases todo
      {
        var id :| id in todo;
        if byID[id].expires <= now {
          ids := ids + [id];
        }
        todo := todo - {id};
      }
    }
  }

  // ---------------------------------------------------------------- Open

  /** The two maps hold one object per kept row among the rows seen so far. */
  ghost predicate Rehydrated(byID: map<Id, Lease>, byToken: map<Token, Lease>, kept: map<Id, Record>, seen: set<Id>)
    reads byID.Values
  {
    && (forall k :: k in byID <==> k in kept && k in seen)
    && (forall k :: k in byID ==> byID[k].Rec() == kept[k])
    && (forall k :: k in byID ==> kept[k].token in byToken && byToken[kept[k].token] == byID[k])
    && (forall t :: t in byToken ==> byToken[t].token == t && byToken[t].id in byID && byID[byToken[t].id] == byToken[t])
  }

  ghost function PortsAmong(kept: map<Id, Record>, seen: set<Id>): set<int> {
    set k | k in kept && k in seen :: kept[k].port
  }

  lemma PortsAmongGrows(kept: map<Id, Record>, seen: set<Id>, k: Id)
    ensures PortsAmong(kept, seen + {k}) == if k in kept then PortsAmong(kept, seen) + {kept[k].port} else PortsAmong(kept, seen)
  {
  }

  lemma PortsAmongAll(kept: map<Id, Record>, seen: set<Id>)
    requires kept.Keys <= seen
    ensures PortsAmong(kept, seen) == Ports(kept)
  {
  }

  lemma RehydratedWith(byID: map<Id, Lease>, byToken: map<Token, Lease>, kept: map<Id, Record>, seen: set<Id>, k: Id, o: Lease)
    requires Distinct(kept) && Rehydrated(byID, byToken, kept, seen) && k !in seen && k in kept && o.Rec() == kept[k]
    ensures Rehydrated(byID[k := o], byToken[o.token := o], kept, seen + {k})
  {
  }

  /** Rehydrates one row and reserves its port, unless it is stale. */
  method LoadRow(k: Id, row: Row, keep: bool, byID: map<Id, Lease>, byToken: map<Token, Lease>, alloc: PortAllocator,
                 ghost kept: map<Id, Record>, ghost seen: set<Id>)
    returns (byID': map<Id, Lease>, byToken': map<Token, Lease>)
    requires Distinct(kept) && Rehydrated(byID, byToken, kept, seen) && k !in seen
    requires keep <==> k in kept
    requires keep ==> row == Row(kept[k]) && alloc.min <= row.rec.port <= alloc.max
    requires alloc.Valid() && alloc.used == PortsAmong(kept, seen)
    modifies alloc
    ensures Rehydrated(byID', byToken', kept, seen + {k})
    ensures alloc.Valid() && alloc.next == old(alloc.next) && alloc.used == PortsAmong(kept, seen + {k})
  {
    PortsAmongGrows(kept, seen, k);
    if !keep {
      return byID, byToken;
    }
    alloc.Reserve(row.rec.port);
    var cp := new Lease(row.rec);
    RehydratedWith(byID, byToken, kept, seen, k, cp);
    return byID[k := cp], byToken[row.rec.token := cp];
  }

  /** One pass over the rows: rehydrate what is kept, reserve its ports, collect the rest. */
  method Load(disk: map<Id, Row>, min: int, max: int, now: int, ghost kept: map<Id, Record>)
    returns (byID: map<Id, Lease>, byToken: map<Token, Lease>, alloc: PortAllocator, stale: set<Id>)
    requires min <= max && kept == Kept(disk, min, max, now) && Distinct(kept)
    ensures fresh(alloc) && alloc.Abstract() == Alloc(min, max, min, PortsAmong(kept, disk.Keys))
    ensures Rehydrated(byID, byToken, kept, disk.Keys)
    ensures forall k :: k in stale <==> k in disk && k !in kept
  {
    byID, byToken, stale := map[], map[], {};
    alloc := new PortAllocator(min, max);
    var todo := disk.Keys;
    ghost var done: set<Id> := {};
    while todo != {}
      invariant (forall k :: k in disk <==> k in done || k in todo) && done !! todo && fresh(alloc) && alloc.Valid()
      invariant alloc.min == min && alloc.max == max && alloc.next == min && alloc.used == PortsAmong(kept, done)
      invariant Rehydrated(byID, byToken, kept, done)
      invariant forall k :: k in stale <==> k in done && k !in kept
      decreases todo
    {
      var k :| k in todo;
      var keep := Keep(disk[k], min, max, now);
      if !keep {
        stale := stale + {k};
      }
      byID, byToken := LoadRow(k, disk[k], keep, byID, byToken, alloc, kept, done);
      todo, done := todo - {k}, done + {k};
    }
  }

  lemma RehydratedLeases(s: LeaseStore, kept: map<Id, Record>, seen: set<Id>)
    requires Rehydrated(s.byID, s.byToken, kept, seen) && kept.Keys <= seen && Distinct(kept)
    ensures s.Leases() == kept
  {
    assert forall k :: k in kept ==> k in s.byID;
  }

  lemma RehydratedIndex(s: LeaseStore, kept: map<Id, Record>, seen: set<Id>)
    requires Rehydrated(s.byID, s.byToken, kept, seen) && kept.Keys <= seen && Distinct(kept)
    ensures s.Shared() && Indexes(s.Index(), kept)
  {
    assert forall k :: k in kept ==> k in s.byID;
    assert forall k :: k in s.byID ==> s.byID[k].Rec() == kept[k];
  }

  lemma RehydratedIsReopened(s: LeaseStore, disk: map<Id, Row>, min: int, max: int, now: int)
    requires min <= max && SoundDisk(disk)
    requires Rehydrated(s.byID, s.byToken, Kept(disk, min, max, now), disk.Keys)
    requires s.alloc.Abstract() == Alloc(min, max, min, Ports(Kept(disk, min, max, now)))
    requires s.disk == Rows(Kept(disk, min, max, now))
    ensures s.Valid() && s.Abstract() == Reopen(disk, min, max, now)
  {
    var kept := Kept(disk, min, max, now);
    ReopenIsGood(disk, min, max, now);
    RehydratedLeases(s, kept, disk.Keys);
    RehydratedIndex(s, kept, disk.Keys);
    IndexIsUnique(s.Index(), TokenIndex(kept), kept);
  }

  /** Rebuilds the store from disk and prunes the rest in the same transaction; if that does
      not commit there is no store and the disk is as before. */
  method Open(disk: map<Id, Row>, min: int, max: int, now: int, commit: bool) returns (s: LeaseStore?, disk': map<Id, Row>)
    requires min <= max && SoundDisk(disk)
    ensures !commit ==> s == null && disk' == disk
    ensures commit ==> s != null && fresh(s) && s.Valid() && s.Abstract() == Reopen(disk, min, max, now) && s.disk == disk'
    ensures commit ==> s.alloc.min == min && s.alloc.max == max && s.alloc.next == min && s.alloc.used == Ports(s.Leases())
    ensures commit ==> forall k, l ::
      k in s.Leases() && s.Leases()[k] == l <==> k in disk && disk[k] == Row(l) && Survives(l, min, max, now)
  {
    ghost var kept := Kept(disk, min, max, now);
    KeptIsDistinct(disk, min, max, now);
    var byID, byToken, alloc, stale := Load(disk, min, max, now, kept);
    if !commit {
      return null, disk;
    }
    disk' := disk - stale;
    s := new LeaseStore(byID, byToken, alloc, disk');
    assert disk' == Rows(kept);
    PortsAmongAll(kept, disk.Keys);
    RehydratedIsReopened(s, disk, min, max, now);
    forall k, l
      ensures k in s.Leases() && s.Leases()[k] == l <==> k in disk && disk[k] == Row(l) && Survives(l, min, max, now)
    {
      ReopenKeepsExactly(disk, min, max, now, k, l);
    }
  }
}

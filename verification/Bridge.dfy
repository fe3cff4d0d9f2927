/** The protocol's view of the store is the store: what `Protocol` assumes of Create, Extend
    and removal is what the calls of `StoreModel` do, seen through port and expiry. */
module Bridge {
  import opened Allocator
  import StoreModel
  import Protocol

  ghost function View(s: StoreModel.State): map<StoreModel.Id, Protocol.Lease> {
    map i | i in s.byID :: Protocol.Lease(s.byID[i].port, s.byID[i].expires)
  }

  lemma ViewUpdate(s: StoreModel.State, s': StoreModel.State, id: StoreModel.Id, l: StoreModel.Record)
    requires s'.byID == s.byID[id := l]
    ensures View(s') == View(s)[id := Protocol.Lease(l.port, l.expires)]
  {
  }

  lemma CreatedLeases(s: StoreModel.State, r: StoreModel.Request)
    requires StoreModel.Creates(s, r)
    ensures StoreModel.Final(s, r).byID == s.byID[r.id := StoreModel.NewLease(r, Choice(s.alloc, r.busy).value)]
  {
  }

  lemma ChoiceIsFree(s: StoreModel.State, r: StoreModel.Request, i: StoreModel.Id)
    requires StoreModel.Good(s) && StoreModel.Creates(s, r) && i in s.byID
    ensures s.byID[i].port != Choice(s.alloc, r.busy).value
  {
    AllocateIsCyclicallyFirst(s.alloc, r.busy);
    assert s.byID[i].port in StoreModel.Ports(s.byID);
  }

  lemma ViewCreate(s: StoreModel.State, r: StoreModel.Request, p: Protocol.State)
    requires StoreModel.Good(s) && StoreModel.Creates(s, r) && r.dur > 0 && p.store == View(s) && p.now == r.now
    ensures
      var e := Protocol.Create(r.id, Choice(s.alloc, r.busy).value, r.dur);
      Protocol.EnabledStore(p, e) && Protocol.ApplyStore(p, e).store == View(StoreModel.Final(s, r))
  {
    CreatedLeases(s, r);
    ViewUpdate(s, StoreModel.Final(s, r), r.id, StoreModel.NewLease(r, Choice(s.alloc, r.busy).value));
    forall i | i in p.store ensures p.store[i].port != Choice(s.alloc, r.busy).value {
      ChoiceIsFree(s, r, i);
    }
  }

  lemma ExtendedLeases(s: StoreModel.State, r: StoreModel.Request)
    requires r.Extend? && r.commit && r.id in s.byID
    ensures StoreModel.Final(s, r).byID == s.byID[r.id := StoreModel.Extended(s, r.id, r.dur).byID[r.id]]
  {
  }

  lemma ViewExtend(s: StoreModel.State, r: StoreModel.Request, p: Protocol.State)
    requires r.Extend? && r.commit && r.id in s.byID && r.dur > 0 && p.store == View(s)
    ensures
      var e := Protocol.Extend(r.id, r.dur);
      Protocol.EnabledStore(p, e) && Protocol.ApplyStore(p, e).store == View(StoreModel.Final(s, r))
  {
    ExtendedLeases(s, r);
    ViewUpdate(s, StoreModel.Final(s, r), r.id, StoreModel.Extended(s, r.id, r.dur).byID[r.id]);
  }

  lemma ViewRemove(s: StoreModel.State, id: StoreModel.Id, p: Protocol.State)
    requires StoreModel.Good(s) && id in s.byID && p.store == View(s)
    ensures View(StoreModel.Final(s, StoreModel.Remove(id, true))) == p.store - {id}
  {
  }

  ghost predicate StepGives(p: Protocol.State, e: Protocol.StoreEvent, after: map<StoreModel.Id, Protocol.Lease>) {
    Protocol.EnabledStore(p, e) && Protocol.ApplyStore(p, e).store == after
  }

  /** A removal that goes through: by revoke, or by a sweep whose cutoff the lease has reached. */
  predicate Removes(p: Protocol.State, r: StoreModel.Request) {
    (r.Remove? || r.RemoveIfBefore?) && r.commit && r.id in p.store &&
    (r.RemoveIfBefore? ==> Protocol.Expired(p.store[r.id], r.cutoff))
  }

  /** What the call must leave for the protocol to have taken the matching step, or none. */
  ghost predicate Mirrors(s: StoreModel.State, p: Protocol.State, r: StoreModel.Request, after: map<StoreModel.Id, Protocol.Lease>) {
    if StoreModel.Creates(s, r) then StepGives(p, Protocol.Create(r.id, Choice(s.alloc, r.busy).value, r.dur), after)
    else if r.Extend? && r.commit && r.id in p.store then StepGives(p, Protocol.Extend(r.id, r.dur), after)
    else after == if Removes(p, r) then p.store - {r.id} else p.store
  }

  lemma RemovalMirrors(s: StoreModel.State, r: StoreModel.Request, p: Protocol.State)
    requires StoreModel.Good(s) && p.store == View(s) && (r.Remove? || r.RemoveIfBefore?)
    ensures View(StoreModel.Final(s, r)) == if Removes(p, r) then p.store - {r.id} else p.store
  {
    if r.RemoveIfBefore? {
      StoreModel.RemoveIfBeforeOutcome(s, r.id, r.cutoff, r.commit);
    }
    if Removes(p, r) {
      ViewRemove(s, r.id, p);
    } else {
      assert StoreModel.Final(s, r) == s;
    }
  }

  lemma OtherwiseNothing(s: StoreModel.State, r: StoreModel.Request)
    requires !StoreModel.Creates(s, r) && (r.Create? || r.Extend?) && (r.Extend? ==> !(r.commit && r.id in s.byID))
    ensures StoreModel.Final(s, r).byID == s.byID
  {
  }

  /** For positive durations, every call of the store is its own step of the protocol exactly
      when it goes through, and otherwise leaves the protocol's store as it was. */
  lemma CallIsProtocolStep(s: StoreModel.State, r: StoreModel.Request, p: Protocol.State)
    requires StoreModel.Good(s) && p.store == View(s)
    requires r.Create? ==> p.now == r.now
    requires r.Create? || r.Extend? ==> r.dur > 0
    ensures Mirrors(s, p, r, View(StoreModel.Final(s, r)))
  {
    if r.Remove? || r.RemoveIfBefore? {
      RemovalMirrors(s, r, p);
    } else if StoreModel.Creates(s, r) {
      ViewCreate(s, r, p);
    } else if r.Extend? && r.commit && r.id in s.byID {
      ViewExtend(s, r, p);
    } else {
      OtherwiseNothing(s, r);
    }
  }

  /** Whatever Open rehydrates is a legal start for the protocol. */
  lemma OpenIsProtocolInit(disk: map<StoreModel.Id, StoreModel.Row>, min: int, max: int, now: int)
    requires StoreModel.SoundDisk(disk)
    ensures Protocol.DistinctPorts(View(StoreModel.Reopen(disk, min, max, now)))
  {
    StoreModel.KeptIsDistinct(disk, min, max, now);
  }
}

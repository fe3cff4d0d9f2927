/** The coordinator (`coordinator.go`): clamped durations, and the calls that drive the
    store. Its interleaving with the forward manager is `Protocol`; here each call runs
    alone. `torn` lists the ids for which the call runs Manager.Teardown. */
module Coordinator {
  import opened Wrappers
  import opened Allocator
  import opened StoreModel
  import opened Store
  import StoreRuns

  const SECOND := 1_000_000_000
  const MAX_INT64 := 0x7fff_ffff_ffff_ffff
  const TWO_64 := 0x1_0000_0000_0000_0000

  /** The largest number of seconds whose nanoseconds fit an int64. */
  const MAX_EXACT_SECONDS := 9_223_372_036

  datatype Config = Config(minSeconds: int, maxSeconds: int)

  /** What config.Load enforces, for int64 fields. */
  predicate ValidConfig(cfg: Config) {
    0 < cfg.minSeconds <= cfg.maxSeconds <= MAX_INT64
  }

  /** Two's complement wrap-around to int64. */
  function Wrap64(x: int): (r: int)
    ensures -MAX_INT64 - 1 <= r <= MAX_INT64 && (x - r) % TWO_64 == 0
  {
    (x + MAX_INT64 + 1) % TWO_64 - MAX_INT64 - 1
  }

  /** A request within the bounds is granted as it is, one outside the nearer bound. */
  function ClampSeconds(cfg: Config, seconds: int): (r: int)
    ensures cfg.minSeconds <= seconds <= cfg.maxSeconds ==> r == seconds
    ensures seconds < cfg.minSeconds <= cfg.maxSeconds ==> r == cfg.minSeconds
    ensures cfg.maxSeconds < seconds ==> r == cfg.maxSeconds
  {
    var s := if seconds < cfg.minSeconds then cfg.minSeconds else seconds;
    if s > cfg.maxSeconds then cfg.maxSeconds else s
  }

  function ClampDuration(cfg: Config, seconds: int): int {
    Wrap64(ClampSeconds(cfg, seconds) * SECOND)
  }

  lemma WrapInRange(x: int)
    requires -MAX_INT64 - 1 <= x <= MAX_INT64
    ensures Wrap64(x) == x
  {
  }

  lemma ClampIsExact(cfg: Config, seconds: int)
    requires ValidConfig(cfg) && cfg.maxSeconds <= MAX_EXACT_SECONDS
    ensures ClampDuration(cfg, seconds) == ClampSeconds(cfg, seconds) * SECOND
    ensures 0 < cfg.minSeconds * SECOND <= ClampDuration(cfg, seconds) <= cfg.maxSeconds * SECOND
    ensures cfg.minSeconds <= seconds <= cfg.maxSeconds ==> ClampDuration(cfg, seconds) == seconds * SECOND
    ensures seconds < cfg.minSeconds ==> ClampDuration(cfg, seconds) == cfg.minSeconds * SECOND
    ensures seconds > cfg.maxSeconds ==> ClampDuration(cfg, seconds) == cfg.maxSeconds * SECOND
  {
    WrapInRange(ClampSeconds(cfg, seconds) * SECOND);
  }

  /** What is granted is the permitted number of seconds nearest to the request. */
  lemma ClampIsNearest(cfg: Config, seconds: int, other: int)
    requires ValidConfig(cfg) && cfg.minSeconds <= other <= cfg.maxSeconds
    ensures
      var granted := ClampSeconds(cfg, seconds);
      && cfg.minSeconds <= granted <= cfg.maxSeconds
      && (if seconds <= granted then granted - seconds else seconds - granted)
           <= (if seconds <= other then other - seconds else seconds - other)
  {
  }

  /** The product never overflows, whatever is requested, exactly when the configured maximum
      stays below the int64 limit; the configuration check does not demand that. */
  lemma ClampExactIff(cfg: Config)
    requires ValidConfig(cfg)
    ensures (forall seconds :: ClampDuration(cfg, seconds) == ClampSeconds(cfg, seconds) * SECOND) <==>
            cfg.maxSeconds <= MAX_EXACT_SECONDS
  {
    if cfg.maxSeconds <= MAX_EXACT_SECONDS {
      forall seconds ensures ClampDuration(cfg, seconds) == ClampSeconds(cfg, seconds) * SECOND {
        ClampIsExact(cfg, seconds);
      }
    } else {
      var x := ClampSeconds(cfg, cfg.maxSeconds) * SECOND;
      assert x > MAX_INT64 >= Wrap64(x);
    }
  }

  /** A configuration that passes the check and turns a long lease into one that ends before it starts. */
  lemma ClampCanGoNegative()
    ensures ValidConfig(Config(3600, MAX_EXACT_SECONDS + 1))
    ensures ClampDuration(Config(3600, MAX_EXACT_SECONDS + 1), MAX_EXACT_SECONDS + 1) < 0
  {
    assert Wrap64(9_223_372_037_000_000_000) == 9_223_372_037_000_000_000 - TWO_64;
  }

  // ---------------------------------------------------------------- paid time

  /** A history driven through the coordinator: secs[n] is what the n-th order asked for. */
  ghost predicate Orders(cfg: Config, evs: seq<StoreRuns.Event>, secs: seq<int>) {
    && |secs| == |evs|
    && forall n :: 0 <= n < |evs| && (evs[n].r.Create? || evs[n].r.Extend?) ==> evs[n].r.dur == ClampDuration(cfg, secs[n])
  }

  /** The clamped seconds of the persisted create that opened the current account of `id` and of
      every persisted extend since. */
  ghost function Bought(cfg: Config, s: State, evs: seq<StoreRuns.Event>, secs: seq<int>, id: Id): int
    requires StoreRuns.Feasible(s, evs) && |secs| == |evs|
    decreases |evs|
  {
    if evs == [] then 0
    else
      var n := |evs| - 1;
      var before := Bought(cfg, s, evs[..n], secs[..n], id);
      if evs[n].r.id != id || !StoreRuns.Persisted(StoreRuns.After(s, evs[..n]), evs[n]) then before
      else if evs[n].r.Create? then ClampSeconds(cfg, secs[n])
      else if evs[n].r.Extend? then before + ClampSeconds(cfg, secs[n])
      else before
  }

  lemma {:induction false} BooksInSeconds(cfg: Config, s: State, evs: seq<StoreRuns.Event>, secs: seq<int>, id: Id)
    requires ValidConfig(cfg) && cfg.maxSeconds <= MAX_EXACT_SECONDS
    requires StoreRuns.Feasible(s, evs) && Orders(cfg, evs, secs) && id !in s.byID
    ensures StoreRuns.Books(s, evs, id).paid == SECOND * Bought(cfg, s, evs, secs, id)
  {
    if evs != [] {
      var n := |evs| - 1;
      BooksInSeconds(cfg, s, evs[..n], secs[..n], id);
      ClampIsExact(cfg, secs[n]);
    }
  }

  /** From an empty database, through any history of orders, retries, failed transactions, crashes
      and restarts, a live lease ends exactly the seconds bought after it began. */
  lemma PaidSecondsAreGranted(cfg: Config, min: int, max: int, now: int, evs: seq<StoreRuns.Event>, secs: seq<int>, id: Id)
    requires ValidConfig(cfg) && cfg.maxSeconds <= MAX_EXACT_SECONDS && min <= max
    requires StoreRuns.Feasible(Reopen(map[], min, max, now), evs) && Orders(cfg, evs, secs)
    requires id in StoreRuns.After(Reopen(map[], min, max, now), evs).byID
    ensures
      var s0 := Reopen(map[], min, max, now);
      var l := StoreRuns.After(s0, evs).byID[id];
      l.expires == l.created + SECOND * Bought(cfg, s0, evs, secs, id)
  {
    var s0 := Reopen(map[], min, max, now);
    ReopenIsGood(map[], min, max, now);
    StoreRuns.PaidTimeIsConserved(s0, evs, id);
    BooksInSeconds(cfg, s0, evs, secs, id);
  }

  // ---------------------------------------------------------------- the calls

  /** What is left of the leases after sweeping `done`, with deletes failing where `commits` says so. */
  ghost function Unswept(m: map<Id, Record>, done: set<Id>, commits: Id -> bool): map<Id, Record> {
    map i | i in m && !(i in done && commits(i)) :: m[i]
  }

  ghost function Elems(ids: seq<Id>): set<Id> {
    set i | i in ids
  }

  lemma Advance(ids: seq<Id>, n: nat)
    requires n < |ids| && forall i, j :: 0 <= i < j < |ids| ==> ids[i] != ids[j]
    ensures ids[..n + 1] == ids[..n] + [ids[n]]
    ensures ids[n] !in Elems(ids[..n]) && Elems(ids[..n] + [ids[n]]) == Elems(ids[..n]) + {ids[n]}
  {
  }

  lemma UnsweptStep(m: map<Id, Record>, done: set<Id>, commits: Id -> bool, k: Id)
    requires k in m && k !in done
    ensures k in Unswept(m, done, commits) && Unswept(m, done, commits)[k] == m[k]
    ensures Unswept(m, done + {k}, commits) ==
      if commits(k) then Unswept(m, done, commits) - {k} else Unswept(m, done, commits)
    ensures |Unswept(m, done + {k}, commits)| == |Unswept(m, done, commits)| - if commits(k) then 1 else 0
  {
    var now := Unswept(m, done, commits);
    assert (now - {k}).Keys == now.Keys - {k};
  }

  class Coordinator {
    const cfg: Config
    const store: LeaseStore

    constructor (cfg: Config, store: LeaseStore)
      ensures this.cfg == cfg && this.store == store
    {
      this.cfg, this.store := cfg, store;
    }

    /** A first create expires its clamped duration from now; a retry changes nothing. */
    method CreateLease(id: Id, seconds: int, allow: seq<string>, parse: string -> bool, busy: nat -> bool,
                       mint: Option<Token>, now: int, commit: bool) returns (r: Reply)
      requires store.Valid() && (mint.Some? ==> mint.value !in store.byToken)
      modifies store, store.alloc
      ensures store.Valid()
      ensures r.Ok? <==> id in store.Leases()
      ensures id in old(store.Leases()) ==> store.Abstract() == old(store.Abstract()) && r == Ok(old(store.Leases())[id])
      ensures id !in old(store.Leases()) && r.Ok? ==>
        && r.l.created == now && r.l.expires == now + ClampDuration(cfg, seconds)
        && r.l.id == id && r.l.allow == allow && mint == Some(r.l.token) && r.l.status == Active
        && r.l.port !in Ports(old(store.Leases()))
        && store.Leases() == old(store.Leases())[id := r.l]
      ensures !r.Ok? ==> store.Leases() == old(store.Leases()) && store.disk == old(store.disk)
      ensures r ==
        if id in old(store.Leases()) then Ok(old(store.Leases())[id])
        else if !AllParse(allow, parse) then ErrInvalidCIDR
        else ProvisionReply(Choice(old(store.alloc.Abstract()), busy), id, ClampDuration(cfg, seconds), allow, mint, now, commit)
    {
      ghost var s := store.Abstract();
      AllocateIsCyclicallyFirst(s.alloc, busy);
      r := store.Create(id, ClampDuration(cfg, seconds), allow, parse, busy, mint, now, commit);
    }

    /** A successful extend adds its clamped duration to the current expiry and to nothing else. */
    method ExtendLease(id: Id, seconds: int, commit: bool) returns (r: Reply)
      requires store.Valid()
      modifies store, store.byID.Values
      ensures store.Valid()
      ensures r.Ok? <==> id in old(store.Leases()) && commit
      ensures !r.Ok? ==> r == if id !in old(store.Leases()) then ErrNotFound else ErrPersist
      ensures r.Ok? ==>
        var l := old(store.Leases())[id];
        r.l == l.(expires := l.expires + ClampDuration(cfg, seconds)) && store.Leases() == old(store.Leases())[id := r.l]
      ensures !r.Ok? ==> store.Abstract() == old(store.Abstract())
    {
      r := store.Extend(id, ClampDuration(cfg, seconds), commit);
    }

    /** The store first, then the teardown; neither happens without the other. */
    method RevokeLease(id: Id, commit: bool) returns (err: Option<Reply>, torn: seq<Id>)
      requires store.Valid()
      modifies store, store.alloc
      ensures store.Valid()
      ensures store.Leases() == if err.None? then old(store.Leases()) - {id} else old(store.Leases())
      ensures torn == if id in old(store.Leases()) && commit then [id] else []
      ensures err.None? <==> torn != []
      ensures err == if id !in old(store.Leases()) then Some(ErrNotFound) else if !commit then Some(ErrPersist) else None
    {
      err := store.Delete(id, commit);
      if err.Some? {
        return err, [];
      }
      return None, [id];
    }

    /** One round of the sweep: re-check, tear down if confirmed, count if the row went. */
    method SweepOne(id: Id, cutoff: int, commit: bool, reaped: nat, torn: seq<Id>, ghost before: map<Id, Record>,
                    ghost done: set<Id>, ghost commits: Id -> bool) returns (reaped': nat, torn': seq<Id>)
      requires store.Valid() && store.Leases() == Unswept(before, done, commits)
      requires id in before && id !in done && commit == commits(id) && before[id].expires <= cutoff
      requires reaped == |before| - |Unswept(before, done, commits)|
      modifies store, store.alloc
      ensures store.Valid() && store.Leases() == Unswept(before, done + {id}, commits)
      ensures torn' == torn + [id] && reaped' == |before| - |Unswept(before, done + {id}, commits)|
    {
      UnsweptStep(before, done, commits, id);
      reaped', torn' := reaped, torn;
      var wasExpired, removed := store.MarkExpiredIfBefore(id, cutoff, commit);
      if wasExpired {
        torn' := torn' + [id];
        if removed {
          reaped' := reaped' + 1;
        }
      }
    }

    method SweepIds(ids: seq<Id>, cutoff: int, commits: Id -> bool, ghost before: map<Id, Record>)
      returns (reaped: nat, torn: seq<Id>)
      requires store.Valid() && store.Leases() == before
      requires ListsExpired(ids, before, cutoff)
      modifies store, store.alloc
      ensures store.Valid() && ListsExpired(torn, before, cutoff)
      ensures store.Leases() == Unswept(before, Elems(torn), commits)
      ensures reaped == |before| - |store.Leases()|
    {
      reaped, torn := 0, [];
      assert before == Unswept(before, Elems(torn), commits);
      for n := 0 to |ids|
        invariant store.Valid() && torn == ids[..n]
        invariant store.Leases() == Unswept(before, Elems(torn), commits)
        invariant reaped == |before| - |store.Leases()|
      {
        Advance(ids, n);
        assert ids[n] in ids;
        reaped, torn := SweepOne(ids[n], cutoff, commits(ids[n]), reaped, torn, before, Elems(torn), commits);
      }
      assert torn == ids;
    }

    /** Without interference: every lease expired by the cutoff is torn down exactly once,
        whether or not its row could be deleted; exactly those whose row was deleted leave the
        store, and `reaped` counts them. */
    method SweepExpired(now: int, commits: Id -> bool) returns (reaped: nat, torn: seq<Id>)
      requires store.Valid()
      modifies store, store.alloc
      ensures store.Valid()
      ensures ListsExpired(torn, old(store.Leases()), now)
      ensures store.Leases() == Unswept(old(store.Leases()), Elems(torn), commits)
      ensures reaped == |old(store.Leases())| - |store.Leases()|
    {
      ghost var before := store.Leases();
      var ids := store.ExpiredBefore(now);
      reaped, torn := SweepIds(ids, now, commits, before);
    }
  }
}

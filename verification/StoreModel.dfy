/** The lease store (`lease/store.go`) on values: memory, disk, and every operation
    as the sequence of micro-states it passes through. Each disk update is one bbolt
    transaction that commits or leaves the disk as it was (`commit`); a row is the
    decoded JSON of a lease, or bytes that do not decode. */
module StoreModel {
  import opened Wrappers
  import opened Allocator

  type Id = string
  type Token = string

  datatype Status = Active | Expired | Revoked

  datatype Record = Record(
    id: Id, token: Token, port: int, allow: seq<string>, created: int, expires: int, status: Status)

  datatype Row = Garbage | Row(rec: Record)

  /** byToken points at the lease object that byID holds under the given id. */
  datatype State = State(byID: map<Id, Record>, byToken: map<Token, Id>, alloc: Alloc, disk: map<Id, Row>)

  predicate IsExpired(l: Record, now: int) {
    l.expires <= now
  }

  /** One call with everything it gets from outside: the clock, whether the allowlist
      parses, the port probes, the random token, and the fate of its transaction. */
  datatype Request =
    | Create(id: Id, dur: int, allow: seq<string>, parses: bool, busy: nat -> bool, mint: Option<Token>, now: int, commit: bool)
    | Extend(id: Id, dur: int, commit: bool)
    | Remove(id: Id, commit: bool)
    | RemoveIfBefore(id: Id, cutoff: int, commit: bool)

  // ---------------------------------------------------------------- operations

  function NewLease(r: Request, port: int): Record
    requires r.Create? && r.mint.Some?
  {
    Record(r.id, r.mint.value, port, r.allow, r.now, r.now + r.dur, Active)
  }

  /** Allocate, mint, persist, index by id, index by token; give the port back when minting
      or persisting fails. */
  function CreateMicros(s: State, r: Request): seq<State>
    requires r.Create?
  {
    if r.id in s.byID || !r.parses || Choice(s.alloc, r.busy).None? then [s]
    else
      var port := Choice(s.alloc, r.busy).value;
      var s1 := s.(alloc := Allocated(s.alloc, r.busy));
      if r.mint.None? || !r.commit then [s, s1, s1.(alloc := Released(s1.alloc, port))]
      else
        var l := NewLease(r, port);
        var s2 := s1.(disk := s1.disk[r.id := Row(l)]);
        var s3 := s2.(byID := s2.byID[r.id := l]);
        [s, s1, s2, s3, s3.(byToken := s3.byToken[l.token := r.id])]
  }

  /** What a create amounts to once it has run to its end. */
  function Created(s: State, r: Request): State
    requires r.Create?
  {
    var port := Choice(s.alloc, r.busy);
    if r.id in s.byID || !r.parses || port.None? then s
    else if r.mint.None? || !r.commit then s.(alloc := Released(Allocated(s.alloc, r.busy), port.value))
    else
      var l := NewLease(r, port.value);
      State(s.byID[r.id := l], s.byToken[l.token := r.id], Allocated(s.alloc, r.busy), s.disk[r.id := Row(l)])
  }

  /** Persist, then move the expiry of the object both indexes share. */
  function ExtendMicros(s: State, r: Request): seq<State>
    requires r.Extend?
  {
    if r.id !in s.byID || !r.commit then [s]
    else
      var l := s.byID[r.id].(expires := s.byID[r.id].expires + r.dur);
      var s1 := s.(disk := s.disk[r.id := Row(l)]);
      [s, s1, s1.(byID := s1.byID[r.id := l])]
  }

  function Extended(s: State, id: Id, dur: int): State
    requires id in s.byID
  {
    var l := s.byID[id].(expires := s.byID[id].expires + dur);
    s.(byID := s.byID[id := l], disk := s.disk[id := Row(l)])
  }

  /** Delete the row, then both index entries, then release the port. */
  function RemoveMicros(s: State, id: Id, commit: bool): seq<State> {
    if id !in s.byID || !commit then [s]
    else
      var l := s.byID[id];
      var s1 := s.(disk := s.disk - {id});
      var s2 := s1.(byID := s1.byID - {id});
      var s3 := s2.(byToken := s2.byToken - {l.token});
      [s, s1, s2, s3, s3.(alloc := Released(s3.alloc, l.port))]
  }

  function Removed(s: State, id: Id): State
    requires id in s.byID
  {
    State(s.byID - {id}, s.byToken - {s.byID[id].token}, Released(s.alloc, s.byID[id].port), s.disk - {id})
  }

  function Micros(s: State, r: Request): (ms: seq<State>)
    ensures ms != [] && ms[0] == s
  {
    match r
    case Create(_, _, _, _, _, _, _, _) => CreateMicros(s, r)
    case Extend(_, _, _) => ExtendMicros(s, r)
    case Remove(id, commit) => RemoveMicros(s, id, commit)
    case RemoveIfBefore(id, cutoff, commit) =>
      if id in s.byID && s.byID[id].expires <= cutoff then RemoveMicros(s, id, commit) else [s]
  }

  function Final(s: State, r: Request): State {
    Micros(s, r)[|Micros(s, r)| - 1]
  }

  lemma RemoveIfBeforeOutcome(s: State, id: Id, cutoff: int, commit: bool)
    ensures Final(s, RemoveIfBefore(id, cutoff, commit)) ==
      if id in s.byID && s.byID[id].expires <= cutoff then Final(s, Remove(id, commit)) else s
  {
  }

  // ---------------------------------------------------------------- Open

  predicate Keep(row: Row, min: int, max: int, now: int) {
    row.Row? && row.rec.status == Active && !IsExpired(row.rec, now) && min <= row.rec.port <= max
  }

  predicate Survives(l: Record, min: int, max: int, now: int) {
    l.status == Active && now < l.expires && min <= l.port <= max
  }

  function Kept(disk: map<Id, Row>, min: int, max: int, now: int): map<Id, Record> {
    map k | k in disk && Keep(disk[k], min, max, now) :: disk[k].rec
  }

  function Rows(leases: map<Id, Record>): map<Id, Row> {
    map k | k in leases :: Row(leases[k])
  }

  function Ports(leases: map<Id, Record>): set<int> {
    set k | k in leases :: leases[k].port
  }

  ghost predicate Distinct(leases: map<Id, Record>) {
    && (forall i :: i in leases ==> leases[i].id == i)
    && (forall i, j :: i in leases && j in leases && i != j ==>
          leases[i].port != leases[j].port && leases[i].token != leases[j].token)
  }

  /** Every token leads to the lease that holds it, and every lease is reached by its token. */
  ghost predicate Indexes(tokens: map<Token, Id>, leases: map<Id, Record>) {
    && (forall t :: t in tokens ==> tokens[t] in leases && leases[tokens[t]].token == t)
    && (forall i :: i in leases ==> leases[i].token in tokens && tokens[leases[i].token] == i)
  }

  function Tokens(leases: map<Id, Record>): set<Token> {
    set k | k in leases :: leases[k].token
  }

  ghost predicate HeldBy(leases: map<Id, Record>, t: Token, k: Id) {
    k in leases && leases[k].token == t
  }

  ghost function Holder(leases: map<Id, Record>, t: Token): (k: Id)
    requires t in Tokens(leases)
    ensures HeldBy(leases, t, k)
  {
    assert exists k :: k in leases && leases[k].token == t && HeldBy(leases, t, k);
    var k :| HeldBy(leases, t, k);
    k
  }

  /** The index rebuilt at startup; were two leases to share a token, it would hold one of them. */
  ghost function TokenIndex(leases: map<Id, Record>): map<Token, Id> {
    map t | t in Tokens(leases) :: Holder(leases, t)
  }

  /** What decodes on disk never names one port, or one token, twice. */
  ghost predicate SoundDisk(disk: map<Id, Row>) {
    Distinct(map k | k in disk && disk[k].Row? :: disk[k].rec)
  }

  lemma KeptIsDistinct(disk: map<Id, Row>, min: int, max: int, now: int)
    requires SoundDisk(disk)
    ensures Distinct(Kept(disk, min, max, now))
  {
    var all := map k | k in disk && disk[k].Row? :: disk[k].rec;
    assert forall k :: k in Kept(disk, min, max, now) ==> k in all && all[k] == Kept(disk, min, max, now)[k];
  }

  /** Memory rebuilt from the surviving rows, everything else pruned from disk. */
  ghost function Reopen(disk: map<Id, Row>, min: int, max: int, now: int): State {
    var kept := Kept(disk, min, max, now);
    State(kept, TokenIndex(kept), Alloc(min, max, min, Ports(kept)), Rows(kept))
  }

  /** A row survives Open exactly when it decodes to an active lease that ends after now and
      holds a port of the range; it survives unchanged, in memory and on disk. */
  lemma ReopenKeepsExactly(disk: map<Id, Row>, min: int, max: int, now: int, k: Id, l: Record)
    ensures
      var s := Reopen(disk, min, max, now);
      && (k in s.byID && s.byID[k] == l <==> k in disk && disk[k] == Row(l) && Survives(l, min, max, now))
      && (k in s.disk <==> k in s.byID) && (k in s.disk ==> s.disk[k] == disk[k])
  {
  }

  // ---------------------------------------------------------------- invariant

  /** Between calls: ports and tokens are held once, the allocator's set is exactly the held
      ports, the token index is exactly the leases' tokens, and disk equals memory. */
  ghost predicate Good(s: State) {
    && s.alloc.Valid() && Distinct(s.byID)
    && s.alloc.used == Ports(s.byID)
    && (forall i :: i in s.byID ==> s.byID[i].status == Active)
    && Indexes(s.byToken, s.byID)
    && s.disk == Rows(s.byID)
  }

  lemma GoodDisk(s: State)
    requires Good(s)
    ensures SoundDisk(s.disk)
  {
    assert (map k | k in s.disk && s.disk[k].Row? :: s.disk[k].rec) == s.byID;
  }

  lemma TokenIndexIndexes(m: map<Id, Record>)
    requires Distinct(m)
    ensures Indexes(TokenIndex(m), m)
  {
    assert forall i :: i in m ==> m[i].token in Tokens(m);
  }

  lemma PortsInsert(m: map<Id, Record>, l: Record)
    requires l.id !in m
    ensures Ports(m[l.id := l]) == Ports(m) + {l.port}
  {
    var m' := m[l.id := l];
    forall p | p in Ports(m) ensures p in Ports(m') {
      var k :| k in m && m[k].port == p;
      assert m'[k].port == p;
    }
    assert m'[l.id].port == l.port;
  }

  lemma PortsDelete(m: map<Id, Record>, id: Id)
    requires Distinct(m) && id in m
    ensures Ports(m - {id}) == Ports(m) - {m[id].port}
  {
    forall p | p in Ports(m) && p != m[id].port ensures p in Ports(m - {id}) {
      var k :| k in m && m[k].port == p;
      assert (m - {id})[k].port == p;
    }
  }

  lemma PortsReplace(m: map<Id, Record>, l: Record)
    requires l.id in m && m[l.id].port == l.port
    ensures Ports(m[l.id := l]) == Ports(m)
  {
    var m' := m[l.id := l];
    forall p | p in Ports(m) ensures p in Ports(m') {
      var k :| k in m && m[k].port == p;
      assert m'[k].port == p;
    }
  }

  lemma InsertIndex(m: map<Id, Record>, tokens: map<Token, Id>, l: Record)
    requires Indexes(tokens, m) && l.id !in m && l.token !in tokens
    ensures Indexes(tokens[l.token := l.id], m[l.id := l])
  {
  }

  /** A new lease on a free port with an unused token. */
  lemma InsertLease(m: map<Id, Record>, tokens: map<Token, Id>, l: Record)
    requires Distinct(m) && Indexes(tokens, m) && l.id !in m && l.port !in Ports(m) && l.token !in tokens
    ensures Distinct(m[l.id := l]) && Indexes(tokens[l.token := l.id], m[l.id := l])
    ensures Rows(m[l.id := l]) == Rows(m)[l.id := Row(l)]
  {
    InsertIndex(m, tokens, l);
    forall i | i in m ensures m[i].port != l.port && m[i].token != l.token {
      assert m[i].port in Ports(m);
    }
  }

  lemma ReplaceLease(m: map<Id, Record>, tokens: map<Token, Id>, l: Record)
    requires Distinct(m) && Indexes(tokens, m) && l.id in m && l.port == m[l.id].port && l.token == m[l.id].token
    ensures Distinct(m[l.id := l]) && Indexes(tokens, m[l.id := l])
    ensures Rows(m[l.id := l]) == Rows(m)[l.id := Row(l)]
  {
  }

  lemma DeleteLease(m: map<Id, Record>, tokens: map<Token, Id>, id: Id)
    requires Distinct(m) && Indexes(tokens, m) && id in m
    ensures Distinct(m - {id}) && Indexes(tokens - {m[id].token}, m - {id})
    ensures Rows(m - {id}) == Rows(m) - {id}
  {
  }

  /** The create goes all the way through. */
  predicate Creates(s: State, r: Request) {
    r.Create? && r.id !in s.byID && r.parses && Choice(s.alloc, r.busy).Some? && r.mint.Some? && r.commit
  }

  lemma CreateKeepsGood(s: State, r: Request)
    requires Good(s) && r.Create? && FreshToken(s, r)
    ensures Good(Final(s, r))
  {
    AllocateIsCyclicallyFirst(s.alloc, r.busy);
    if Creates(s, r) {
      var l := NewLease(r, Choice(s.alloc, r.busy).value);
      PortsInsert(s.byID, l);
      InsertLease(s.byID, s.byToken, l);
    } else if Choice(s.alloc, r.busy).Some? {
      assert s.alloc.used + {Choice(s.alloc, r.busy).value} - {Choice(s.alloc, r.busy).value} == s.alloc.used;
    }
  }

  lemma ExtendKeepsGood(s: State, r: Request)
    requires Good(s) && r.Extend?
    ensures Good(Final(s, r))
  {
    if r.id in s.byID && r.commit {
      var l := s.byID[r.id].(expires := s.byID[r.id].expires + r.dur);
      assert l.id == r.id;
      PortsReplace(s.byID, l);
      ReplaceLease(s.byID, s.byToken, l);
      assert Final(s, r) == s.(byID := s.byID[l.id := l], disk := s.disk[l.id := Row(l)]);
    }
  }

  lemma RemoveKeepsGood(s: State, id: Id, commit: bool)
    requires Good(s)
    ensures Good(RemoveMicros(s, id, commit)[|RemoveMicros(s, id, commit)| - 1])
  {
    if id in s.byID && commit {
      PortsDelete(s.byID, id);
      DeleteLease(s.byID, s.byToken, id);
    }
  }

  /** Minted tokens differ from the tokens of live leases. */
  ghost predicate FreshToken(s: State, r: Request) {
    r.Create? && r.mint.Some? ==> r.mint.value !in s.byToken
  }

  lemma RequestKeepsGood(s: State, r: Request)
    requires Good(s) && FreshToken(s, r)
    ensures Good(Final(s, r))
  {
    match r
    case Create(_, _, _, _, _, _, _, _) => CreateKeepsGood(s, r);
    case Extend(_, _, _) => ExtendKeepsGood(s, r);
    case Remove(id, commit) => RemoveKeepsGood(s, id, commit);
    case RemoveIfBefore(id, cutoff, commit) => RemoveKeepsGood(s, id, commit);
  }

  lemma CreateOutcome(s: State, r: Request)
    requires Good(s) && r.Create? && FreshToken(s, r)
    ensures Created(s, r) == Final(s, r) && Good(Created(s, r))
  {
    RequestKeepsGood(s, r);
  }

  lemma ExtendOutcome(s: State, id: Id, dur: int)
    requires Good(s) && id in s.byID
    ensures Extended(s, id, dur) == Final(s, Extend(id, dur, true)) && Good(Extended(s, id, dur))
  {
    RequestKeepsGood(s, Extend(id, dur, true));
  }

  lemma RemoveOutcome(s: State, id: Id)
    requires Good(s) && id in s.byID
    ensures Removed(s, id) == Final(s, Remove(id, true)) && Good(Removed(s, id))
  {
    RequestKeepsGood(s, Remove(id, true));
  }

  lemma ReopenIsGood(disk: map<Id, Row>, min: int, max: int, now: int)
    requires SoundDisk(disk) && min <= max
    ensures Good(Reopen(disk, min, max, now))
  {
    KeptIsDistinct(disk, min, max, now);
    TokenIndexIndexes(Kept(disk, min, max, now));
  }

  lemma IndexIsUnique(x: map<Token, Id>, y: map<Token, Id>, m: map<Id, Record>)
    requires Indexes(x, m) && Indexes(y, m)
    ensures x == y
  {
    assert forall t :: t in x ==> t in y && y[t] == x[t];
    assert forall t :: t in y ==> t in x;
  }
}

/** The per-source-IP auth limiter (`sshd/limiter.go`). Times and durations are
    nanoseconds; the clock is the `now` each call reads. `last` is None before the first
    call, where the source's zero time makes the first call run the (empty) cleanup. */
module Limiter {
  import opened Wrappers

  type IP = string

  const AUTH_CLEANUP_INTERVAL := 5_000_000_000
  const AUTH_HARD_CAP := 65536

  datatype Config = Config(max: int, window: int)

  datatype Window = Window(count: int, start: int)

  datatype State = State(seen: map<IP, Window>, last: Option<int>)

  datatype Call = Call(ip: IP, now: int)

  const FRESH := State(map[], None)

  /** config.Load rejects anything else. */
  predicate ValidConfig(cfg: Config) {
    cfg.max > 0 && cfg.window > 0
  }

  predicate Live(cfg: Config, w: Window, now: int) {
    now - w.start <= cfg.window
  }

  predicate CleanupDue(s: State, now: int) {
    s.last.None? || now - s.last.value >= AUTH_CLEANUP_INTERVAL
  }

  function Evict(cfg: Config, seen: map<IP, Window>, now: int): map<IP, Window> {
    map k | k in seen && Live(cfg, seen[k], now) :: seen[k]
  }

  function Clean(cfg: Config, s: State, now: int): State {
    if CleanupDue(s, now) then State(Evict(cfg, s.seen, now), Some(now)) else s
  }

  /** The map is full of other addresses. */
  predicate Full(s: State, ip: IP) {
    ip !in s.seen && |s.seen| >= AUTH_HARD_CAP
  }

  function Admits(cfg: Config, s: State, c: Call): bool {
    var s1 := Clean(cfg, s, c.now);
    if c.ip in s1.seen && Live(cfg, s1.seen[c.ip], c.now) then s1.seen[c.ip].count < cfg.max
    else !Full(s1, c.ip)
  }

  function Allow(cfg: Config, s: State, c: Call): State {
    var s1 := Clean(cfg, s, c.now);
    if !Admits(cfg, s, c) then s1
    else if c.ip in s1.seen && Live(cfg, s1.seen[c.ip], c.now) then
      s1.(seen := s1.seen[c.ip := Window(s1.seen[c.ip].count + 1, s1.seen[c.ip].start)])
    else s1.(seen := s1.seen[c.ip := Window(1, c.now)])
  }

  // ---------------------------------------------------------------- the object

  class AuthLimiter {
    const cfg: Config
    var seen: map<IP, Window>
    var lastCleanup: Option<int>

    function Abstract(): State
      reads this
    {
      State(seen, lastCleanup)
    }

    constructor (max: int, window: int)
      ensures cfg == Config(max, window) && Abstract() == FRESH
    {
      cfg := Config(max, window);
      seen, lastCleanup := map[], None;
    }

    method MaybeCleanup(now: int)
      modifies this
      ensures Abstract() == Clean(cfg, old(Abstract()), now)
    {
      if lastCleanup.Some? && now - lastCleanup.value < AUTH_CLEANUP_INTERVAL {
        return;
      }
      lastCleanup := Some(now);
      var todo := seen.Keys;
      while todo != {}
        invariant todo <= seen.Keys
        invariant lastCleanup == Some(now)
        invariant forall k :: k in seen ==> k in old(seen) && seen[k] == old(seen)[k]
        invariant forall k :: k in old(seen) && (k in todo || Live(cfg, old(seen)[k], now)) ==> k in seen
        invariant forall k :: k in seen && k !in todo ==> Live(cfg, seen[k], now)
        decreases todo
      {
        var k :| k in todo;
        if now - seen[k].start > cfg.window {
          seen := seen - {k};
        }
        todo := todo - {k};
      }
      assert seen == Evict(cfg, old(seen), now);
    }

    method TryAdmit(ip: IP, now: int) returns (ok: bool)
      modifies this
      ensures ok == Admits(cfg, old(Abstract()), Call(ip, now))
      ensures Abstract() == Allow(cfg, old(Abstract()), Call(ip, now))
    {
      MaybeCleanup(now);
      var known := ip in seen;
      if known && now - seen[ip].start <= cfg.window {
        if seen[ip].count >= cfg.max {
          return false;
        }
        seen := seen[ip := Window(seen[ip].count + 1, seen[ip].start)];
        return true;
      }
      if !known && |seen| >= AUTH_HARD_CAP {
        return false;
      }
      seen := seen[ip := Window(1, now)];
      return true;
    }
  }

  // ---------------------------------------------------------------- runs

  ghost predicate Chronological(calls: seq<Call>) {
    forall i, j :: 0 <= i <= j < |calls| ==> calls[i].now <= calls[j].now
  }

  ghost function After(cfg: Config, calls: seq<Call>): State {
    if calls == [] then FRESH else Allow(cfg, After(cfg, calls[..|calls| - 1]), calls[|calls| - 1])
  }

  /** The answer call k of the run got. */
  ghost predicate Admitted(cfg: Config, calls: seq<Call>, k: nat)
    requires k < |calls|
  {
    Admits(cfg, After(cfg, calls[..k]), calls[k])
  }

  // ---------------------------------------------------------------- bounded memory

  /** Invariant of every state a run reaches, at the time of its last call. */
  ghost predicate Bounded(cfg: Config, s: State, now: int) {
    && s.last.Some? && s.last.value <= now < s.last.value + AUTH_CLEANUP_INTERVAL
    && |s.seen| <= AUTH_HARD_CAP
    && (forall k :: k in s.seen ==> 1 <= s.seen[k].count <= cfg.max && s.seen[k].start <= now)
    && (forall k :: k in s.seen ==> s.last.value - s.seen[k].start <= cfg.window)
  }

  lemma EvictShrinks(cfg: Config, seen: map<IP, Window>, now: int)
    ensures |Evict(cfg, seen, now)| <= |seen|
  {
    var kept := Evict(cfg, seen, now);
    assert kept.Keys <= seen.Keys;
    assert |seen.Keys| == |kept.Keys| + |seen.Keys - kept.Keys|;
  }

  lemma CleanBounded(cfg: Config, s: State, now: int, t: int)
    requires ValidConfig(cfg) && t <= now && (s == FRESH || Bounded(cfg, s, t))
    ensures Bounded(cfg, Clean(cfg, s, now), now)
  {
    EvictShrinks(cfg, s.seen, now);
  }

  lemma BoundedStep(cfg: Config, s: State, c: Call, t: int)
    requires ValidConfig(cfg) && t <= c.now && (s == FRESH || Bounded(cfg, s, t))
    ensures Bounded(cfg, Allow(cfg, s, c), c.now)
  {
    var s1 := Clean(cfg, s, c.now);
    CleanBounded(cfg, s, c.now, t);
    if Admits(cfg, s, c) {
      InsertSize(s1.seen, c.ip, Allow(cfg, s, c).seen[c.ip]);
    }
  }

  /** After any call of any run the map holds at most the hard cap of entries, and every
      entry is younger than the window plus one cleanup interval. */
  lemma {:induction false} MapStaysBounded(cfg: Config, calls: seq<Call>)
    requires ValidConfig(cfg) && Chronological(calls) && calls != []
    ensures
      var s, now := After(cfg, calls), calls[|calls| - 1].now;
      && Bounded(cfg, s, now)
      && |s.seen| <= 65536
      && (forall k :: k in s.seen ==> now - s.seen[k].start < cfg.window + 5_000_000_000)
  {
    var n := |calls| - 1;
    if n > 0 {
      MapStaysBounded(cfg, calls[..n]);
    }
    BoundedStep(cfg, After(cfg, calls[..n]), calls[n], if n == 0 then calls[0].now else calls[n - 1].now);
  }

  // ---------------------------------------------------------------- the simple counter

  /** The limiter as one would describe it: a fixed-window counter per address that forgets
      nothing and has no cap. */
  function RefAdmits(cfg: Config, r: map<IP, Window>, c: Call): bool {
    c.ip !in r || !Live(cfg, r[c.ip], c.now) || r[c.ip].count < cfg.max
  }

  function RefAllow(cfg: Config, r: map<IP, Window>, c: Call): map<IP, Window> {
    if !RefAdmits(cfg, r, c) then r
    else if c.ip in r && Live(cfg, r[c.ip], c.now) then r[c.ip := Window(r[c.ip].count + 1, r[c.ip].start)]
    else r[c.ip := Window(1, c.now)]
  }

  ghost function RefAfter(cfg: Config, calls: seq<Call>): map<IP, Window> {
    if calls == [] then map[] else RefAllow(cfg, RefAfter(cfg, calls[..|calls| - 1]), calls[|calls| - 1])
  }

  /** Entries the limiter has agree; entries it lacks had expired by time t. */
  ghost predicate Simulates(cfg: Config, s: State, r: map<IP, Window>, t: int) {
    && (forall k :: k in s.seen ==> k in r && r[k] == s.seen[k])
    && (forall k :: k in r && k !in s.seen ==> !Live(cfg, r[k], t))
  }

  /** One call, from related states: the answers agree exactly when the map is not full of
      other addresses, and then the states stay related. */
  lemma SimulatesStep(cfg: Config, s: State, r: map<IP, Window>, c: Call, t: int)
    requires ValidConfig(cfg) && t <= c.now && Simulates(cfg, s, r, t)
    ensures
      var full := Full(Clean(cfg, s, c.now), c.ip);
      && (Admits(cfg, s, c) == RefAdmits(cfg, r, c) <==> !full)
      && (!full ==> Simulates(cfg, Allow(cfg, s, c), RefAllow(cfg, r, c), c.now))
  {
    assert Simulates(cfg, Clean(cfg, s, c.now), r, c.now);
  }

  /** Call k of the run found the map full of other addresses. */
  ghost predicate HitCap(cfg: Config, calls: seq<Call>, k: nat)
    requires k < |calls|
  {
    Full(Clean(cfg, After(cfg, calls[..k]), calls[k].now), calls[k].ip)
  }

  lemma {:induction false} SimulatesRun(cfg: Config, calls: seq<Call>, t: int)
    requires ValidConfig(cfg) && Chronological(calls) && (calls != [] ==> t == calls[|calls| - 1].now)
    requires forall i :: 0 <= i < |calls| ==> !HitCap(cfg, calls, i)
    ensures Simulates(cfg, After(cfg, calls), RefAfter(cfg, calls), t)
  {
    if calls != [] {
      var n := |calls| - 1;
      var t' := if n == 0 then t else calls[n - 1].now;
      forall i | 0 <= i < n ensures !HitCap(cfg, calls[..n], i) {
        assert calls[..n][..i] == calls[..i];
        assert !HitCap(cfg, calls, i);
      }
      SimulatesRun(cfg, calls[..n], t');
      assert !HitCap(cfg, calls, n);
      SimulatesStep(cfg, After(cfg, calls[..n]), RefAfter(cfg, calls[..n]), calls[n], t');
    }
  }

  /** In every run, as long as no earlier call met a full map, call k gets the answer of the
      counter that never evicts if and only if it does not meet a full map itself. */
  lemma AgreesWithSimpleCounter(cfg: Config, calls: seq<Call>, k: nat)
    requires ValidConfig(cfg) && Chronological(calls) && k < |calls|
    requires forall i :: 0 <= i < k ==> !HitCap(cfg, calls, i)
    ensures Admitted(cfg, calls, k) == RefAdmits(cfg, RefAfter(cfg, calls[..k]), calls[k]) <==> !HitCap(cfg, calls, k)
  {
    forall i | 0 <= i < k ensures !HitCap(cfg, calls[..k], i) {
      assert calls[..k][..i] == calls[..i];
      assert !HitCap(cfg, calls, i);
    }
    var t := if k == 0 then calls[0].now else calls[k - 1].now;
    SimulatesRun(cfg, calls[..k], t);
    SimulatesStep(cfg, After(cfg, calls[..k]), RefAfter(cfg, calls[..k]), calls[k], t);
  }
}

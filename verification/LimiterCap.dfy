/** What the limiter's hard cap refuses. The map may still hold expired entries when it counts
    as full, because the eviction scan runs at most once per cleanup interval. */
module LimiterCap {
  import opened Wrappers
  import opened Limiter
  import opened LimiterRates

  // ---------------------------------------------------------------- what a scan leaves behind

  /** When the latest eviction scan of the run took place, five seconds apart at the least; this
      depends on the times alone. */
  function LastScan(calls: seq<Call>): Option<int> {
    if calls == [] then None
    else
      var n := |calls| - 1;
      var last := LastScan(calls[..n]);
      if last.None? || calls[n].now - last.value >= 5_000_000_000 then Some(calls[n].now) else last
  }

  predicate ScanDue(calls: seq<Call>, k: nat)
    requires k < |calls|
  {
    var last := LastScan(calls[..k]);
    last.None? || calls[k].now - last.value >= 5_000_000_000
  }

  lemma {:induction false} ScanTimes(cfg: Config, calls: seq<Call>)
    ensures After(cfg, calls).last == LastScan(calls)
  {
    if calls != [] {
      ScanTimes(cfg, calls[..|calls| - 1]);
    }
  }

  /** The map holds the latest window of `ip` exactly if that had not expired at the last scan. */
  ghost predicate Holds(cfg: Config, s: State, w: Option<Window>, ip: IP, t: int) {
    && (s.last.Some? ==> s.last.value <= t)
    && (ip in s.seen ==> w == Some(s.seen[ip]))
    && (w.Some? ==> s.last.Some? && (ip in s.seen <==> s.last.value - w.value.start <= cfg.window))
  }

  lemma HoldsStep(cfg: Config, s: State, w: Option<Window>, ip: IP, c: Call, t: int)
    requires ValidConfig(cfg) && t <= c.now && Holds(cfg, s, w, ip, t)
    ensures
      var s' := Allow(cfg, s, c);
      Holds(cfg, s', if c.ip == ip && Admits(cfg, s, c) then Some(s'.seen[ip]) else w, ip, c.now)
  {
    assert Holds(cfg, Clean(cfg, s, c.now), w, ip, c.now);
  }

  lemma {:induction false} HoldsRun(cfg: Config, calls: seq<Call>, ip: IP, t: int)
    requires ValidConfig(cfg) && Chronological(calls) && (calls != [] ==> t == calls[|calls| - 1].now)
    ensures Holds(cfg, After(cfg, calls), Latest(cfg, calls, ip), ip, t)
  {
    if calls != [] {
      var n := |calls| - 1;
      var t' := if n == 0 then t else calls[n - 1].now;
      HoldsRun(cfg, calls[..n], ip, t');
      HoldsStep(cfg, After(cfg, calls[..n]), Latest(cfg, calls[..n], ip), ip, calls[n], t');
    }
  }

  // ---------------------------------------------------------------- when the leftovers are live

  ghost predicate AllLive(cfg: Config, s: State, now: int) {
    forall k :: k in s.seen ==> Live(cfg, s.seen[k], now)
  }

  /** The latest window of `ip` before call k was still open at the last scan but is over by now. */
  ghost predicate Outlived(cfg: Config, calls: seq<Call>, k: nat, ip: IP)
    requires k < |calls|
  {
    match (Latest(cfg, calls[..k], ip), LastScan(calls[..k]))
    case (Some(w), Some(last)) => last - w.start <= cfg.window < calls[k].now - w.start
    case _ => false
  }

  lemma LeftoverIsOutlived(cfg: Config, calls: seq<Call>, k: nat, ip: IP)
    requires ValidConfig(cfg) && Chronological(calls) && k < |calls| && !ScanDue(calls, k)
    ensures
      var s := After(cfg, calls[..k]);
      ip in s.seen && !Live(cfg, s.seen[ip], calls[k].now) <==> Outlived(cfg, calls, k, ip)
  {
    ScanTimes(cfg, calls[..k]);
    HoldsRun(cfg, calls[..k], ip, if k == 0 then 0 else calls[k - 1].now);
  }

  /** In every run, what the cleanup leaves at call k is all within its window if and only if the
      scan is due at this call, or no address had a window that was open at the last scan and
      is over now. */
  lemma LeftoversLiveIff(cfg: Config, calls: seq<Call>, k: nat)
    requires ValidConfig(cfg) && Chronological(calls) && k < |calls|
    ensures
      var now := calls[k].now;
      AllLive(cfg, Clean(cfg, After(cfg, calls[..k]), now), now) <==> ScanDue(calls, k) || !exists ip :: Outlived(cfg, calls, k, ip)
  {
    ScanTimes(cfg, calls[..k]);
    if !ScanDue(calls, k) {
      forall ip
        ensures
          var s := After(cfg, calls[..k]);
          ip in s.seen && !Live(cfg, s.seen[ip], calls[k].now) <==> Outlived(cfg, calls, k, ip)
      {
        LeftoverIsOutlived(cfg, calls, k, ip);
      }
    }
  }

  /** A call that meets the cap is refused over exactly 65536 entries of other addresses,
      and all of them are within their window if and only if LeftoversLiveIff says so. */
  lemma CapCountsLiveIff(cfg: Config, calls: seq<Call>, k: nat)
    requires ValidConfig(cfg) && Chronological(calls) && k < |calls| && HitCap(cfg, calls, k)
    ensures
      var s := Clean(cfg, After(cfg, calls[..k]), calls[k].now);
      && !Admitted(cfg, calls, k)
      && |s.seen| == 65536 && calls[k].ip !in s.seen
      && (AllLive(cfg, s, calls[k].now) <==> ScanDue(calls, k) || !exists ip :: Outlived(cfg, calls, k, ip))
  {
    LeftoversLiveIff(cfg, calls, k);
    if k > 0 {
      MapStaysBounded(cfg, calls[..k]);
      CleanBounded(cfg, After(cfg, calls[..k]), calls[k].now, calls[k - 1].now);
    }
  }

  // ---------------------------------------------------------------- a cap of expired entries

  function Name(n: nat): IP {
    seq(n, _ => '1')
  }

  function Names(n: nat): (names: set<IP>)
    ensures |names| == n && Name(n) !in names
    ensures forall ip :: ip in names ==> |ip| < n
  {
    if n == 0 then {}
    else
      assert |Name(n - 1)| == n - 1 && |Name(n)| == n;
      Names(n - 1) + {Name(n - 1)}
  }

  /** One window opened at time 0 by each of the first n addresses, and the last scan at time l. */
  ghost predicate Filled(s: State, n: nat, l: int) {
    s.seen.Keys == Names(n) && s.last == Some(l) && forall ip :: ip in s.seen ==> s.seen[ip].start == 0
  }

  lemma FilledSize(s: State, n: nat, l: int)
    requires Filled(s, n, l)
    ensures |s.seen| == n && Name(n) !in s.seen
  {
    assert |s.seen.Keys| == n;
  }

  lemma AfterOneMore(cfg: Config, calls: seq<Call>, c: Call)
    ensures After(cfg, calls + [c]) == Allow(cfg, After(cfg, calls), c)
  {
    assert (calls + [c])[..|calls|] == calls;
  }

  /** Leaves one window, opened at time 0. When the window is one instant short of the cleanup
      interval, earlier attempts see to it that no scan falls right after that window. */
  function Prologue(cfg: Config): (calls: seq<Call>)
    ensures calls != []
  {
    if cfg.window != AUTH_CLEANUP_INTERVAL - 1 then [Call(Name(0), 0)]
    else [Call(Name(1), -AUTH_CLEANUP_INTERVAL - 1), Call(Name(0), -AUTH_CLEANUP_INTERVAL), Call(Name(0), -1)] + [Call(Name(0), 0)]
  }

  function FirstScan(cfg: Config): int {
    if cfg.window != AUTH_CLEANUP_INTERVAL - 1 then 0 else -1
  }

  /** The map holds one window, of a, and the last scan was at time l. */
  ghost predicate Lone(s: State, a: IP, start: int, l: int) {
    s.seen.Keys == {a} && s.seen[a].start == start && s.last == Some(l)
  }

  lemma FirstAttempt(cfg: Config, a: IP, t: int)
    requires ValidConfig(cfg)
    ensures Lone(Allow(cfg, FRESH, Call(a, t)), a, t, t)
  {
  }

  ghost predicate Pair(s: State, a: IP, b: IP, t: int) {
    s.seen.Keys == {a, b} && s.seen[a].start == t + 1 && s.seen[b].start == t && s.last == Some(t)
  }

  lemma SecondAttempt(cfg: Config, s: State, a: IP, b: IP, t: int)
    requires ValidConfig(cfg) && a != b && Lone(s, b, t, t)
    ensures Pair(Allow(cfg, s, Call(a, t + 1)), a, b, t)
  {
    assert |s.seen.Keys| == 1;
  }

  lemma ThirdAttempt(cfg: Config, s: State, a: IP, b: IP, t: int)
    requires cfg.window == AUTH_CLEANUP_INTERVAL - 1 && a != b && Pair(s, a, b, t)
    ensures Lone(Allow(cfg, s, Call(a, t + AUTH_CLEANUP_INTERVAL)), a, t + 1, t + AUTH_CLEANUP_INTERVAL)
  {
    assert Clean(cfg, s, t + AUTH_CLEANUP_INTERVAL).seen.Keys == {a};
  }

  lemma FourthAttempt(cfg: Config, s: State, a: IP, t: int)
    requires cfg.window == AUTH_CLEANUP_INTERVAL - 1 && Lone(s, a, t + 1, t + AUTH_CLEANUP_INTERVAL)
    ensures Lone(Allow(cfg, s, Call(a, t + AUTH_CLEANUP_INTERVAL + 1)), a, t + AUTH_CLEANUP_INTERVAL + 1, t + AUTH_CLEANUP_INTERVAL)
  {
  }

  lemma LongPrologue(cfg: Config, a: IP, b: IP, t: int)
    requires ValidConfig(cfg) && cfg.window == AUTH_CLEANUP_INTERVAL - 1 && a != b
    ensures
      var e := t + AUTH_CLEANUP_INTERVAL;
      Lone(After(cfg, [Call(b, t), Call(a, t + 1), Call(a, e)] + [Call(a, e + 1)]), a, e + 1, e)
  {
    var e := t + AUTH_CLEANUP_INTERVAL;
    var one, two, three := [Call(b, t)], [Call(b, t), Call(a, t + 1)], [Call(b, t), Call(a, t + 1), Call(a, e)];
    assert [] + [Call(b, t)] == one && one + [Call(a, t + 1)] == two && two + [Call(a, e)] == three;
    AfterOneMore(cfg, [], Call(b, t));
    FirstAttempt(cfg, b, t);
    AfterOneMore(cfg, one, Call(a, t + 1));
    SecondAttempt(cfg, After(cfg, one), a, b, t);
    AfterOneMore(cfg, two, Call(a, e));
    ThirdAttempt(cfg, After(cfg, two), a, b, t);
    AfterOneMore(cfg, three, Call(a, e + 1));
    FourthAttempt(cfg, After(cfg, three), a, t);
  }

  lemma PrologueRun(cfg: Config)
    requires ValidConfig(cfg)
    ensures Lone(After(cfg, Prologue(cfg)), Name(0), 0, FirstScan(cfg))
  {
    if cfg.window == AUTH_CLEANUP_INTERVAL - 1 {
      assert |Name(0)| != |Name(1)|;
      LongPrologue(cfg, Name(0), Name(1), -AUTH_CLEANUP_INTERVAL - 1);
    } else {
      assert [] + [Call(Name(0), 0)] == Prologue(cfg);
      AfterOneMore(cfg, [], Call(Name(0), 0));
      FirstAttempt(cfg, Name(0), 0);
    }
  }

  /** n addresses, one window each, all opened at time 0. */
  function Fill(cfg: Config, n: nat): (calls: seq<Call>)
    requires n > 0
  {
    if n == 1 then Prologue(cfg) else Fill(cfg, n - 1) + [Call(Name(n - 1), 0)]
  }

  /** One more address, with room left and no scan due. */
  lemma FillStep(cfg: Config, s: State, n: nat, l: int)
    requires ValidConfig(cfg) && Filled(s, n, l) && n < AUTH_HARD_CAP && -1 <= l <= 0
    ensures Filled(Allow(cfg, s, Call(Name(n), 0)), n + 1, l)
  {
    FilledSize(s, n, l);
    assert Names(n + 1) == Names(n) + {Name(n)};
  }

  lemma {:induction false} FillRun(cfg: Config, n: nat)
    requires ValidConfig(cfg) && 0 < n <= AUTH_HARD_CAP
    ensures Filled(After(cfg, Fill(cfg, n)), n, FirstScan(cfg))
  {
    if n == 1 {
      PrologueRun(cfg);
      assert Names(0) == {} && Names(1) == {Name(0)};
    } else {
      FillRun(cfg, n - 1);
      AfterOneMore(cfg, Fill(cfg, n - 1), Call(Name(n - 1), 0));
      FillStep(cfg, After(cfg, Fill(cfg, n - 1)), n - 1, FirstScan(cfg));
    }
  }

  ghost predicate NamedBelow(calls: seq<Call>, n: nat) {
    forall i :: 0 <= i < |calls| ==> |calls[i].ip| < n
  }

  lemma {:induction false} FillShape(cfg: Config, n: nat)
    requires n > 1
    ensures OrderedUpTo(Fill(cfg, n), 0) && NamedBelow(Fill(cfg, n), n)
  {
    if n == 2 {
      assert |Name(0)| == 0 && |Name(1)| == 1;
      assert Fill(cfg, 2) == Prologue(cfg) + [Call(Name(1), 0)];
    } else {
      FillShape(cfg, n - 1);
      OrderedOneMore(Fill(cfg, n - 1), 0, Call(Name(n - 1), 0));
    }
  }

  /** The addresses of Fill, then one of them at the last instant of its window. */
  function Flood(cfg: Config, n: nat): seq<Call>
    requires n > 0
  {
    Fill(cfg, n) + [Call(Name(0), cfg.window)]
  }

  lemma {:induction false} NameZero(n: nat)
    requires n > 0
    ensures Name(0) in Names(n)
  {
    if n > 1 {
      NameZero(n - 1);
    }
  }

  /** The last instant of the window: a scan, if one is due, evicts nothing. */
  lemma KnownAddress(cfg: Config, s: State, n: nat, l: int)
    requires ValidConfig(cfg) && n > 0 && Filled(s, n, l) && l <= 0
    ensures Filled(Allow(cfg, s, Call(Name(0), cfg.window)), n, if cfg.window - l >= AUTH_CLEANUP_INTERVAL then cfg.window else l)
  {
    NameZero(n);
    assert Clean(cfg, s, cfg.window).seen == s.seen;
  }

  /** n windows opened at time 0, the last attempt at the last instant of them, and no scan due
      one instant later. */
  ghost predicate Flooded(cfg: Config, calls: seq<Call>, n: nat) {
    var s := After(cfg, calls);
    && |s.seen| == n && (forall ip :: ip in s.seen ==> s.seen[ip].start == 0 && |ip| < n)
    && !CleanupDue(s, cfg.window + 1)
    && OrderedUpTo(calls, cfg.window) && NamedBelow(calls, n)
  }

  lemma FloodState(cfg: Config, s: State, n: nat, l: int)
    requires ValidConfig(cfg) && n > 0 && Filled(s, n, l) && l == FirstScan(cfg)
    ensures
      var s' := Allow(cfg, s, Call(Name(0), cfg.window));
      && |s'.seen| == n && (forall ip :: ip in s'.seen ==> s'.seen[ip].start == 0 && |ip| < n)
      && !CleanupDue(s', cfg.window + 1)
  {
    KnownAddress(cfg, s, n, l);
    FilledSize(Allow(cfg, s, Call(Name(0), cfg.window)), n, if cfg.window - l >= AUTH_CLEANUP_INTERVAL then cfg.window else l);
  }

  lemma FloodRun(cfg: Config, n: nat)
    requires ValidConfig(cfg) && 1 < n <= AUTH_HARD_CAP
    ensures Flooded(cfg, Flood(cfg, n), n)
  {
    var c := Call(Name(0), cfg.window);
    FillRun(cfg, n);
    AfterOneMore(cfg, Fill(cfg, n), c);
    FloodState(cfg, After(cfg, Fill(cfg, n)), n, FirstScan(cfg));
    FillShape(cfg, n);
    OrderedOneMore(Fill(cfg, n), 0, c);
  }

  lemma FloodExists(cfg: Config, n: nat)
    requires ValidConfig(cfg) && 1 < n <= AUTH_HARD_CAP
    ensures exists calls :: Flooded(cfg, calls, n)
  {
    FloodRun(cfg, n);
  }

  /** Call k of the run comes from an address that never tried before and is refused, although no
      entry that the cleanup left is within its window. */
  ghost predicate RefusedOverExpired(cfg: Config, calls: seq<Call>, k: nat)
    requires k < |calls|
  {
    var s := Clean(cfg, After(cfg, calls[..k]), calls[k].now);
    && Chronological(calls) && HitCap(cfg, calls, k) && !Admitted(cfg, calls, k)
    && (forall i :: 0 <= i < k ==> calls[i].ip != calls[k].ip)
    && (forall ip :: ip in s.seen ==> !Live(cfg, s.seen[ip], calls[k].now))
  }

  lemma FloodRefuses(cfg: Config, n: nat, calls: seq<Call>, ip: IP)
    requires ValidConfig(cfg) && n >= AUTH_HARD_CAP && Flooded(cfg, calls, n) && |ip| == n
    ensures RefusedOverExpired(cfg, calls + [Call(ip, cfg.window + 1)], |calls|)
  {
    var c := Call(ip, cfg.window + 1);
    assert (calls + [c])[..|calls|] == calls && (calls + [c])[|calls|] == c;
    OrderedOneMore(calls, cfg.window, c);
  }

  /** For every configuration there is a run in which a new address is refused although every
      entry of the map has expired. */
  lemma ExpiredEntriesCanFillTheCap(cfg: Config)
    requires ValidConfig(cfg)
    ensures exists calls, k :: 0 <= k < |calls| && RefusedOverExpired(cfg, calls, k)
  {
    FloodExists(cfg, AUTH_HARD_CAP);
    var calls :| Flooded(cfg, calls, AUTH_HARD_CAP);
    var ip := seq(AUTH_HARD_CAP, _ => '1');
    FloodRefuses(cfg, AUTH_HARD_CAP, calls, ip);
    assert RefusedOverExpired(cfg, calls + [Call(ip, cfg.window + 1)], |calls|);
  }
}

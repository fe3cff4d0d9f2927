/** How many attempts of one address the limiter lets through in a stretch of time. */
module LimiterRates {
  import opened Wrappers
  import opened Limiter

  /** The number of admitted calls from `ip` with a time in [a, b]. */
  ghost function Count(cfg: Config, calls: seq<Call>, ip: IP, a: int, b: int): nat {
    if calls == [] then 0
    else
      var n := |calls| - 1;
      Count(cfg, calls[..n], ip, a, b) +
      if calls[n].ip == ip && a <= calls[n].now <= b && Admitted(cfg, calls, n) then 1 else 0
  }

  /** The window the latest admitted call from `ip` was counted in, evicted or not. */
  ghost function Latest(cfg: Config, calls: seq<Call>, ip: IP): Option<Window> {
    if calls == [] then None
    else
      var n := |calls| - 1;
      if calls[n].ip == ip && Admitted(cfg, calls, n) then Some(After(cfg, calls).seen[ip])
      else Latest(cfg, calls[..n], ip)
  }

  /** The map entry of `ip` is its latest window; without an entry that window had expired by t. */
  ghost predicate Remembers(cfg: Config, s: State, w: Option<Window>, ip: IP, t: int) {
    && (ip in s.seen ==> w == Some(s.seen[ip]))
    && (w.Some? ==> 1 <= w.value.count <= cfg.max && w.value.start <= t)
    && (w.Some? && ip !in s.seen ==> !Live(cfg, w.value, t))
  }

  lemma RemembersStep(cfg: Config, s: State, w: Option<Window>, ip: IP, c: Call, t: int)
    requires ValidConfig(cfg) && t <= c.now && Remembers(cfg, s, w, ip, t)
    ensures
      var s' := Allow(cfg, s, c);
      var w' := if c.ip == ip && Admits(cfg, s, c) then Some(s'.seen[ip]) else w;
      && Remembers(cfg, s', w', ip, c.now)
      && (c.ip == ip && Admits(cfg, s, c) ==>
            if w.Some? && Live(cfg, w.value, c.now) then w' == Some(Window(w.value.count + 1, w.value.start))
            else w' == Some(Window(1, c.now)))
  {
  }

  lemma {:induction false} RemembersRun(cfg: Config, calls: seq<Call>, ip: IP, t: int)
    requires ValidConfig(cfg) && Chronological(calls) && (calls != [] ==> t == calls[|calls| - 1].now)
    ensures Remembers(cfg, After(cfg, calls), Latest(cfg, calls, ip), ip, t)
  {
    if calls != [] {
      var n := |calls| - 1;
      var t' := if n == 0 then t else calls[n - 1].now;
      RemembersRun(cfg, calls[..n], ip, t');
      RemembersStep(cfg, After(cfg, calls[..n]), Latest(cfg, calls[..n], ip), ip, calls[n], t');
    }
  }

  /** What the latest window tells about the admissions in [a, a + window]: those of a window
      opened before a exclude its first one, and at most one earlier window reaches into it. */
  ghost predicate Rated(cfg: Config, w: Option<Window>, n: int, a: int, t: int) {
    && (t < a ==> n == 0)
    && match w
       case None => n == 0
       case Some(w) =>
         if w.start < a then n <= w.count - 1
         else if w.start <= a + cfg.window then n <= cfg.max - 1 + w.count
         else n <= 2 * cfg.max - 1
  }

  lemma {:induction false} RatedRun(cfg: Config, calls: seq<Call>, ip: IP, a: int, t: int)
    requires ValidConfig(cfg) && Chronological(calls) && (calls != [] ==> t == calls[|calls| - 1].now)
    ensures Rated(cfg, Latest(cfg, calls, ip), Count(cfg, calls, ip, a, a + cfg.window), a, t)
  {
    if calls != [] {
      var n := |calls| - 1;
      var t' := if n == 0 then t else calls[n - 1].now;
      RatedRun(cfg, calls[..n], ip, a, t');
      RemembersRun(cfg, calls[..n], ip, t');
      RemembersStep(cfg, After(cfg, calls[..n]), Latest(cfg, calls[..n], ip), ip, calls[n], t');
    }
  }

  /** In every run, any closed interval of one window length admits at most 2*max - 1 attempts
      from one address, evictions and cap refusals included. */
  lemma IntervalBound(cfg: Config, calls: seq<Call>, ip: IP, a: int)
    requires ValidConfig(cfg) && Chronological(calls)
    ensures Count(cfg, calls, ip, a, a + cfg.window) <= 2 * cfg.max - 1
  {
    var t := if calls == [] then a else calls[|calls| - 1].now;
    RatedRun(cfg, calls, ip, a, t);
    RemembersRun(cfg, calls, ip, t);
  }

  /** Call i was admitted and opened a new window for its address. */
  ghost predicate Opens(cfg: Config, calls: seq<Call>, i: nat)
    requires i < |calls|
  {
    Admitted(cfg, calls, i) && Latest(cfg, calls[..i + 1], calls[i].ip) == Some(Window(1, calls[i].now))
  }

  lemma Unroll(cfg: Config, calls: seq<Call>, k: nat, ip: IP, a: int, b: int)
    requires k < |calls|
    ensures
      var s, c := After(cfg, calls[..k]), calls[k];
      var hit := c.ip == ip && Admits(cfg, s, c);
      && Count(cfg, calls[..k + 1], ip, a, b) == Count(cfg, calls[..k], ip, a, b) + (if hit && a <= c.now <= b then 1 else 0)
      && Latest(cfg, calls[..k + 1], ip) == if hit then Some(Allow(cfg, s, c).seen[ip]) else Latest(cfg, calls[..k], ip)
  {
    assert calls[..k + 1][..k] == calls[..k];
  }

  /** While a window opened at `start` has not passed, an admission raises its count. */
  lemma WindowStep(cfg: Config, s: State, w: Option<Window>, ip: IP, c: Call, t: int, start: int, n: int)
    requires ValidConfig(cfg) && start <= t <= c.now && Remembers(cfg, s, w, ip, t)
    requires n <= cfg.max && (t <= start + cfg.window ==> w == Some(Window(n, start)))
    ensures
      var hit := c.ip == ip && Admits(cfg, s, c);
      var n' := n + if hit && start <= c.now <= start + cfg.window then 1 else 0;
      var w' := if hit then Some(Allow(cfg, s, c).seen[ip]) else w;
      n' <= cfg.max && (c.now <= start + cfg.window ==> w' == Some(Window(n', start)))
  {
    RemembersStep(cfg, s, w, ip, c, t);
  }

  /** The admissions by call i's address among calls i to k - 1, within a window length of call i. */
  ghost function CountSince(cfg: Config, calls: seq<Call>, i: nat, k: nat): int
    requires i < k <= |calls|
  {
    var ip, s := calls[i].ip, calls[i].now;
    Count(cfg, calls[..k], ip, s, s + cfg.window) - Count(cfg, calls[..i], ip, s, s + cfg.window)
  }

  /** Up to call k the window opened by call i has not overflowed, and unless it has passed it is
      the latest window and its count is the number of admissions since. */
  ghost predicate InWindow(cfg: Config, calls: seq<Call>, i: nat, k: nat)
    requires i < k <= |calls|
  {
    && CountSince(cfg, calls, i, k) <= cfg.max
    && (calls[k - 1].now <= calls[i].now + cfg.window ==>
          Latest(cfg, calls[..k], calls[i].ip) == Some(Window(CountSince(cfg, calls, i, k), calls[i].now)))
  }

  lemma WindowOpens(cfg: Config, calls: seq<Call>, i: nat)
    requires ValidConfig(cfg) && i < |calls| && Opens(cfg, calls, i)
    ensures InWindow(cfg, calls, i, i + 1)
  {
    Unroll(cfg, calls, i, calls[i].ip, calls[i].now, calls[i].now + cfg.window);
  }

  lemma SinceStep(cfg: Config, calls: seq<Call>, i: nat, k: nat)
    requires i < k < |calls|
    ensures
      var ip, s := calls[i].ip, calls[i].now;
      var hit := calls[k].ip == ip && Admits(cfg, After(cfg, calls[..k]), calls[k]);
      CountSince(cfg, calls, i, k + 1) == CountSince(cfg, calls, i, k) + if hit && s <= calls[k].now <= s + cfg.window then 1 else 0
  {
    Unroll(cfg, calls, k, calls[i].ip, calls[i].now, calls[i].now + cfg.window);
  }

  lemma WindowGoesOn(cfg: Config, calls: seq<Call>, i: nat, k: nat)
    requires ValidConfig(cfg) && Chronological(calls) && i < k < |calls| && InWindow(cfg, calls, i, k)
    ensures InWindow(cfg, calls, i, k + 1)
  {
    var ip, s, t := calls[i].ip, calls[i].now, calls[k - 1].now;
    SinceStep(cfg, calls, i, k);
    Unroll(cfg, calls, k, ip, s, s + cfg.window);
    RemembersRun(cfg, calls[..k], ip, t);
    WindowStep(cfg, After(cfg, calls[..k]), Latest(cfg, calls[..k], ip), ip, calls[k], t, s, CountSince(cfg, calls, i, k));
  }

  lemma {:induction false} WindowRun(cfg: Config, calls: seq<Call>, i: nat, k: nat)
    requires ValidConfig(cfg) && Chronological(calls) && i < k <= |calls| && Opens(cfg, calls, i)
    ensures InWindow(cfg, calls, i, k)
    decreases k
  {
    if k == i + 1 {
      WindowOpens(cfg, calls, i);
    } else {
      WindowRun(cfg, calls, i, k - 1);
      WindowGoesOn(cfg, calls, i, k - 1);
    }
  }

  /** A window admits at most max attempts: counted from the call that opens it, through every
      later call of the run that falls within the window length. */
  lemma WindowBound(cfg: Config, calls: seq<Call>, i: nat)
    requires ValidConfig(cfg) && Chronological(calls) && i < |calls| && Opens(cfg, calls, i)
    ensures CountSince(cfg, calls, i, |calls|) <= cfg.max
  {
    WindowRun(cfg, calls, i, |calls|);
  }

  // ---------------------------------------------------------------- the bound is reached

  ghost predicate OrderedUpTo(calls: seq<Call>, t: int) {
    Chronological(calls) && forall i :: 0 <= i < |calls| ==> calls[i].now <= t
  }

  lemma OrderedOneMore(calls: seq<Call>, t: int, c: Call)
    requires OrderedUpTo(calls, t) && t <= c.now
    ensures OrderedUpTo(calls + [c], c.now)
  {
  }

  /** With `ip` alone in the map, one more attempt either joins its window or opens the next. */
  lemma LoneStep(cfg: Config, calls: seq<Call>, ip: IP, w: Window, now: int, a: int, b: int)
    requires ValidConfig(cfg) && After(cfg, calls).seen == map[ip := w] && (Live(cfg, w, now) ==> w.count < cfg.max)
    ensures After(cfg, calls + [Call(ip, now)]).seen ==
      map[ip := if Live(cfg, w, now) then Window(w.count + 1, w.start) else Window(1, now)]
    ensures Count(cfg, calls + [Call(ip, now)], ip, a, b) == Count(cfg, calls, ip, a, b) + if a <= now <= b then 1 else 0
  {
    var s1 := Clean(cfg, After(cfg, calls), now);
    assert s1.seen.Keys <= {ip};
    assert s1.seen == map[] || s1.seen == map[ip := w];
    assert (calls + [Call(ip, now)])[..|calls|] == calls;
  }

  /** The run has made one attempt at time 0 and k at the last instant of that window. */
  ghost predicate InFirstWindow(cfg: Config, calls: seq<Call>, ip: IP, k: int) {
    && OrderedUpTo(calls, cfg.window)
    && After(cfg, calls).seen == map[ip := Window(k + 1, 0)] && Count(cfg, calls, ip, 1, 1 + cfg.window) == k
  }

  lemma EarlyStart(cfg: Config, ip: IP) returns (calls: seq<Call>)
    requires ValidConfig(cfg)
    ensures InFirstWindow(cfg, calls, ip, 0)
  {
    calls := [Call(ip, 0)];
    assert calls[..0] == [];
  }

  lemma EarlyStep(cfg: Config, calls: seq<Call>, ip: IP, k: nat) returns (more: seq<Call>)
    requires ValidConfig(cfg) && k + 1 < cfg.max && InFirstWindow(cfg, calls, ip, k)
    ensures InFirstWindow(cfg, more, ip, k + 1)
  {
    more := calls + [Call(ip, cfg.window)];
    LoneStep(cfg, calls, ip, Window(k + 1, 0), cfg.window, 1, 1 + cfg.window);
    OrderedOneMore(calls, cfg.window, Call(ip, cfg.window));
  }

  lemma {:induction false} EarlyRun(cfg: Config, ip: IP, k: nat) returns (calls: seq<Call>)
    requires ValidConfig(cfg) && k < cfg.max
    ensures InFirstWindow(cfg, calls, ip, k)
  {
    if k == 0 {
      calls := EarlyStart(cfg, ip);
    } else {
      var fewer := EarlyRun(cfg, ip, k - 1);
      calls := EarlyStep(cfg, fewer, ip, k - 1);
    }
  }

  /** The run has filled the first window and made k attempts one instant after it. */
  ghost predicate InSecondWindow(cfg: Config, calls: seq<Call>, ip: IP, k: int) {
    && OrderedUpTo(calls, cfg.window + 1)
    && After(cfg, calls).seen == map[ip := if k == 0 then Window(cfg.max, 0) else Window(k, cfg.window + 1)]
    && Count(cfg, calls, ip, 1, 1 + cfg.window) == cfg.max - 1 + k
  }

  lemma LateStart(cfg: Config, calls: seq<Call>, ip: IP)
    requires InFirstWindow(cfg, calls, ip, cfg.max - 1)
    ensures InSecondWindow(cfg, calls, ip, 0)
  {
  }

  lemma LateStep(cfg: Config, calls: seq<Call>, ip: IP, k: nat) returns (more: seq<Call>)
    requires ValidConfig(cfg) && k < cfg.max && InSecondWindow(cfg, calls, ip, k)
    ensures InSecondWindow(cfg, more, ip, k + 1)
  {
    more := calls + [Call(ip, cfg.window + 1)];
    var w := if k == 0 then Window(cfg.max, 0) else Window(k, cfg.window + 1);
    LoneStep(cfg, calls, ip, w, cfg.window + 1, 1, 1 + cfg.window);
    OrderedOneMore(calls, cfg.window + 1, Call(ip, cfg.window + 1));
  }

  lemma {:induction false} LateRun(cfg: Config, ip: IP, k: nat) returns (calls: seq<Call>)
    requires ValidConfig(cfg) && k <= cfg.max
    ensures InSecondWindow(cfg, calls, ip, k)
  {
    if k == 0 {
      calls := EarlyRun(cfg, ip, cfg.max - 1);
      LateStart(cfg, calls, ip);
    } else {
      var fewer := LateRun(cfg, ip, k - 1);
      calls := LateStep(cfg, fewer, ip, k - 1);
    }
  }

  /** For every configuration some run admits exactly 2*max - 1 in one window length, so the
      interval bound cannot be lowered. */
  lemma IntervalBoundIsTight(cfg: Config, ip: IP)
    requires ValidConfig(cfg)
    ensures exists calls :: Chronological(calls) && Count(cfg, calls, ip, 1, 1 + cfg.window) == 2 * cfg.max - 1
  {
    var calls := LateRun(cfg, ip, cfg.max);
    assert Chronological(calls);
  }
}

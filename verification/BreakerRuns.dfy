// What the circuit breaker guarantees over whole runs: any interleaving of
// Record and Allow calls on any number of product lines, each call with its own
// configuration and clock readings.
module BreakerRuns {
  import opened Options
  import opened Breaker

  datatype Event =
    | Record(line: string, suppressed: bool, config: Option<Config>)
    | Allow(line: string, config: Option<Config>, t0: nat, t1: nat)
  {
    function Cfg(): Config { Normalise(config) }

    // A recording on line p that counts: a disabled breaker keeps no record.
    predicate RecordsOn(p: string) { Record? && line == p && !Cfg().disabled }
  }

  function Step(s: Lines, e: Event): Lines {
    match e
    case Record(p, x, c) => Recorded(s, p, x, c)
    case Allow(p, c, t0, t1) => Allowed(s, p, c, t0, t1).0
  }

  // The state after the first i events of a run.
  function After(s: Lines, es: seq<Event>, i: nat): Lines
    requires i <= |es|
  {
    if i == 0 then s else Step(After(s, es, i - 1), es[i - 1])
  }

  // Event i switches enforcement off on line p.
  predicate TripsAt(s: Lines, es: seq<Event>, p: string, i: nat)
    requires i < |es|
  {
    es[i].Allow? && es[i].line == p &&
    Allowed(After(s, es, i), p, es[i].config, es[i].t0, es[i].t1).1.tripped
  }

  // How many recordings line p receives among events i .. j-1.
  function Recordings(es: seq<Event>, p: string, i: nat, j: nat): (n: nat)
    requires i <= j <= |es|
    ensures n <= j - i
  {
    if i == j then 0 else Recordings(es, p, i, j - 1) + (if es[j - 1].RecordsOn(p) then 1 else 0)
  }

  predicate ClockNeverGoesBack(es: seq<Event>) {
    forall i | 0 <= i < |es| :: es[i].Allow? ==> es[i].t0 <= es[i].t1
  }

  // ---------- Lines do not influence each other ----------

  lemma OtherLinesUntouched(s: Lines, e: Event, p: string)
    requires e.line != p
    ensures p in Step(s, e) <==> p in s
    ensures p in s ==> Step(s, e)[p] == s[p]
  {
  }

  function At(s: Lines, p: string): Option<Line> {
    if p in s then Some(s[p]) else None
  }

  // The events on line p, in order.
  function OnLine(es: seq<Event>, p: string): (r: seq<Event>)
    ensures |r| <= |es|
  {
    if es == [] then []
    else
      var rest := OnLine(es[..|es| - 1], p);
      if es[|es| - 1].line == p then rest + [es[|es| - 1]] else rest
  }

  lemma {:induction false} AfterPrefix(s: Lines, es: seq<Event>, e: Event, i: nat)
    requires i <= |es|
    ensures After(s, es + [e], i) == After(s, es, i)
  {
    if i > 0 {
      AfterPrefix(s, es, e, i - 1);
    }
  }

  lemma StepIsLocal(a: Lines, b: Lines, e: Event)
    requires At(a, e.line) == At(b, e.line)
    ensures At(Step(a, e), e.line) == At(Step(b, e), e.line)
  {
  }

  // A line's state after a run is what its own events alone make of it.
  lemma {:induction false} LinesAreIndependent(s: Lines, es: seq<Event>, p: string)
    ensures At(After(s, es, |es|), p) == At(After(s, OnLine(es, p), |OnLine(es, p)|), p)
  {
    if es != [] {
      hide Step;
      var front, e := es[..|es| - 1], es[|es| - 1];
      var own := OnLine(front, p);
      assert es == front + [e];
      LinesAreIndependent(s, front, p);
      AfterPrefix(s, front, e, |front|);
      if e.line == p {
        AfterPrefix(s, own, e, |own|);
        StepIsLocal(After(s, front, |front|), After(s, own, |own|), e);
      } else {
        OtherLinesUntouched(After(s, front, |front|), e, p);
      }
    }
  }

  // ---------- Two trips of a line are apart ----------

  lemma StepBounds(s: Lines, e: Event, p: string)
    requires p in s && (e.Allow? ==> e.t0 <= e.t1)
    ensures p in Step(s, e) && Step(s, e)[p].openUntil >= s[p].openUntil
    ensures |Step(s, e)[p].history| <= |s[p].history| + (if e.RecordsOn(p) then 1 else 0)
  {
    hide Implausible;
  }

  // Once line p has tripped at event i, its state stays within these bounds.
  lemma {:induction false} SinceTrip(s: Lines, es: seq<Event>, p: string, i: nat, k: nat)
    requires ClockNeverGoesBack(es) && i < k <= |es| && TripsAt(s, es, p, i)
    ensures p in After(s, es, k)
    ensures After(s, es, k)[p].openUntil >= es[i].t1 + es[i].Cfg().Cooldown()
    ensures |After(s, es, k)[p].history| <= Recordings(es, p, i + 1, k)
    decreases k
  {
    hide Implausible, Normalise;
    if k > i + 1 {
      hide Step;
      SinceTrip(s, es, p, i, k - 1);
      StepBounds(After(s, es, k - 1), es[k - 1], p);
    }
  }

  lemma TripsAreApart(s: Lines, es: seq<Event>, p: string, i: nat, j: nat)
    requires ClockNeverGoesBack(es) && i < j < |es|
    requires TripsAt(s, es, p, i) && TripsAt(s, es, p, j)
    ensures es[j].t0 >= es[i].t1 + es[i].Cfg().Cooldown()
    ensures Recordings(es, p, i + 1, j) >= es[j].Cfg().minSamples
  {
    SinceTrip(s, es, p, i, j);
  }

  // ---------- Enforcement comes back ----------

  // Line p trips at none of the events i .. j-1.
  predicate NoTrip(s: Lines, es: seq<Event>, p: string, i: nat, j: nat)
    requires i <= j <= |es|
  {
    forall k | i <= k < j :: !TripsAt(s, es, p, k)
  }

  // The end of a cooldown that starts at t1, in nanoseconds: the configured seconds
  // later, or 900 when that many cannot be used.
  function CooldownEnd(config: Option<Config>, t1: nat): int {
    var seconds := if config.Some? && config.value.cooldownSeconds > 0 then config.value.cooldownSeconds else 900;
    t1 + seconds * 1_000_000_000
  }

  lemma StepWithoutTrip(s: Lines, e: Event, p: string)
    requires !(e.Allow? && e.line == p && Allowed(s, p, e.config, e.t0, e.t1).1.tripped)
    ensures p in s ==> p in Step(s, e) && Step(s, e)[p].openUntil == s[p].openUntil && Step(s, e)[p].trips == s[p].trips
    ensures p !in s && p in Step(s, e) ==> Step(s, e)[p].openUntil == 0 && Step(s, e)[p].trips == 0
  {
    hide Implausible, Normalise;
  }

  lemma TripStartsCooldown(s: Lines, p: string, config: Option<Config>, t0: nat, t1: nat)
    requires Allowed(s, p, config, t0, t1).1.tripped
    ensures var s' := Allowed(s, p, config, t0, t1).0;
            && p in s' && s'[p].openUntil == CooldownEnd(config, t1) && s'[p].history == []
            && s'[p].trips == (if p in s then s[p].trips else 0) + 1
            && (p in s ==> t0 >= s[p].openUntil)
  {
    hide Implausible;
  }

  // After a trip at event i the line is off until that cooldown ends, as long as it does
  // not trip again.
  lemma {:induction false} OffUntil(s: Lines, es: seq<Event>, p: string, i: nat, j: nat)
    requires i < j <= |es| && TripsAt(s, es, p, i) && NoTrip(s, es, p, i + 1, j)
    ensures p in After(s, es, j) && After(s, es, j)[p].openUntil == CooldownEnd(es[i].config, es[i].t1)
  {
    hide Implausible, Normalise, Allowed, Recorded, CooldownEnd;
    if j == i + 1 {
      TripStartsCooldown(After(s, es, i), p, es[i].config, es[i].t0, es[i].t1);
    } else {
      OffUntil(s, es, p, i, j - 1);
      assert !TripsAt(s, es, p, j - 1);
      StepWithoutTrip(After(s, es, j - 1), es[j - 1], p);
    }
  }

  // Until it trips again, an Allow on the line is refused for the cooldown exactly before
  // the configured time is over, and Open says so exactly as long: an Allow that does not
  // trip answers true exactly from then on.
  lemma EnforcementComesBack(s: Lines, es: seq<Event>, p: string, i: nat, j: nat, config: Option<Config>,
        t0: nat, t1: nat)
    requires i < j <= |es| && TripsAt(s, es, p, i) && NoTrip(s, es, p, i + 1, j)
    requires config.Some? ==> !config.value.disabled
    ensures var after, over := After(s, es, j), t0 >= CooldownEnd(es[i].config, es[i].t1);
            var d := Allowed(after, p, config, t0, t1).1;
            && (!over ==> d == Decision(false, false))
            && (over ==> d.allowed == !d.tripped)
            && p in after && (t0 < after[p].openUntil <==> !over)
  {
    hide Implausible, CooldownEnd;
    OffUntil(s, es, p, i, j);
  }

  // A line that never tripped has never been off.
  lemma {:induction false} NeverOffBefore(s: Lines, es: seq<Event>, p: string, j: nat)
    requires j <= |es| && p !in s && NoTrip(s, es, p, 0, j)
    ensures p in After(s, es, j) ==> After(s, es, j)[p].openUntil == 0
  {
    hide Implausible, Normalise, Allowed, Recorded;
    if j > 0 {
      NeverOffBefore(s, es, p, j - 1);
      assert !TripsAt(s, es, p, j - 1);
      StepWithoutTrip(After(s, es, j - 1), es[j - 1], p);
    }
  }

  // A disabled breaker lets everything pass and keeps no record.
  lemma DisabledAlwaysAllows(s: Lines, p: string, config: Option<Config>, suppressed: bool, t0: nat, t1: nat)
    requires config.Some? && config.value.disabled
    ensures Allowed(s, p, config, t0, t1) == (s, Decision(true, false)) && Recorded(s, p, suppressed, config) == s
  {
  }

  function Trips(s: Lines, es: seq<Event>, p: string, n: nat): nat
    requires n <= |es|
  {
    if n == 0 then 0 else Trips(s, es, p, n - 1) + (if TripsAt(s, es, p, n - 1) then 1 else 0)
  }

  lemma {:induction false} TripsAreCounted(es: seq<Event>, p: string, n: nat)
    requires n <= |es|
    ensures (if p in After(map[], es, n) then After(map[], es, n)[p].trips else 0) == Trips(map[], es, p, n)
  {
    hide Implausible, Normalise, Allowed, Recorded, CooldownEnd;
    if n > 0 {
      TripsAreCounted(es, p, n - 1);
      var e, before := es[n - 1], After(map[], es, n - 1);
      if TripsAt(map[], es, p, n - 1) {
        TripStartsCooldown(before, p, e.config, e.t0, e.t1);
      } else {
        StepWithoutTrip(before, e, p);
      }
    }
  }

  // ---------- A full window of suppressed outcomes trips ----------

  lemma {:induction false} CountAll(h: seq<bool>)
    requires forall i | 0 <= i < |h| :: h[i]
    ensures Count(h) == |h|
  {
    if h != [] {
      CountAll(h[..|h| - 1]);
    }
  }

  // On line p only suppressed outcomes are recorded, under one configuration, and no
  // Allow trips: it may fall inside a cooldown or find the window still plausible.
  predicate OnlySuppressed(s: Lines, es: seq<Event>, p: string, config: Option<Config>) {
    forall i | 0 <= i < |es| && es[i].line == p ::
      es[i].config == config && (if es[i].Record? then es[i].suppressed else !TripsAt(s, es, p, i))
  }

  // Such an Allow changes at most the window of the line, to the one it is asked for.
  lemma AllowWithoutTrip(s: Lines, p: string, config: Option<Config>, t0: nat, t1: nat)
    requires !Normalise(config).disabled && !Allowed(s, p, config, t0, t1).1.tripped
    ensures Allowed(s, p, config, t0, t1).0 == s[p := Resolve(s, p, Normalise(config))]
    ensures p in s && s[p].window == Normalise(config).window ==> Allowed(s, p, config, t0, t1).0 == s
  {
    hide Normalise, Implausible;
  }

  lemma {:induction false} TrailingSuppressed(s: Lines, es: seq<Event>, p: string, config: Option<Config>, k: nat)
    requires k <= |es| && !Normalise(config).disabled && OnlySuppressed(s, es, p, config)
    ensures Recordings(es, p, 0, k) > 0 ==>
              p in After(s, es, k) && After(s, es, k)[p].window == Normalise(config).window
    ensures var n := Recordings(es, p, 0, k);
            n > 0 ==> var h := After(s, es, k)[p].history;
            n <= |h| && forall m | |h| - n <= m < |h| :: h[m]
    decreases k
  {
    hide Implausible, Normalise, Allowed;
    if k > 0 {
      TrailingSuppressed(s, es, p, config, k - 1);
      var e := es[k - 1];
      if e.line == p && e.Allow? {
        AllowWithoutTrip(After(s, es, k - 1), p, config, e.t0, e.t1);
      } else if e.line != p {
        OtherLinesUntouched(After(s, es, k - 1), e, p);
      }
    }
  }

  lemma FullWindowIsImplausible(l: Line, cfg: Config, n: nat)
    requires cfg.Usable() && l.window == cfg.window <= n <= |l.history|
    requires forall m | |l.history| - n <= m < |l.history| :: l.history[m]
    ensures Implausible(l, cfg)
  {
    var recent := Last(l.history, l.window);
    CountAll(recent);
    ImplausibleExactly(l, cfg);
  }

  // However the line stood before, whatever happens on other lines, and however often it
  // is asked meanwhile: once a whole window of suppressed outcomes has been recorded
  // without a trip, the next Allow after any cooldown trips.
  lemma FullWindowTrips(s: Lines, es: seq<Event>, p: string, config: Option<Config>, t0: nat, t1: nat)
    requires !Normalise(config).disabled && OnlySuppressed(s, es, p, config)
    requires Recordings(es, p, 0, |es|) >= Normalise(config).window
    requires p in After(s, es, |es|) ==> After(s, es, |es|)[p].openUntil <= t0
    ensures Allowed(After(s, es, |es|), p, config, t0, t1).1 == Decision(false, true)
  {
    TrailingSuppressed(s, es, p, config, |es|);
    FullWindowIsImplausible(After(s, es, |es|)[p], Normalise(config), Recordings(es, p, 0, |es|));
  }

  // ---------- How much can slip through without a trip ----------

  // No prefix of h, seen through the window, would have tripped.
  predicate Quiet(h: seq<bool>, cfg: Config)
    requires cfg.Usable()
  {
    forall k | 0 < k <= |h| :: !Implausible(Line(cfg.window, h[..k], 0, 0), cfg)
  }

  // At most this many of n outcomes can be suppressed while Allow keeps
  // answering true: TripRate of every whole window, and of the rest.
  function Tolerated(n: nat, cfg: Config): real
    requires cfg.Usable()
  {
    Tolerance(n / cfg.window, n % cfg.window, cfg)
  }

  function Tolerance(windows: nat, rest: nat, cfg: Config): real {
    var floor := (cfg.minSamples - 1) as real;
    var share := cfg.tripRate * rest as real;
    cfg.tripRate * cfg.window as real * windows as real + (if share < floor then floor else share)
  }

  lemma Quotient(x: real, n: real, r: real)
    requires n > 0.0
    ensures x / n >= r <==> x >= r * n
  {
    var q := x / n;
    assert q * n == x;
    if q >= r {
      assert (q - r) * n >= 0.0;
    } else {
      assert (r - q) * n > 0.0;
    }
  }

  // The decision without its division.
  lemma ImplausibleExactly(l: Line, cfg: Config)
    requires cfg.Usable()
    ensures var recent := Last(l.history, l.window);
            Implausible(l, cfg) <==>
              |recent| >= cfg.minSamples && Count(recent) as real >= cfg.tripRate * |recent| as real
  {
    var recent := Last(l.history, l.window);
    if recent != [] {
      Quotient(Count(recent) as real, |recent| as real, cfg.tripRate);
    }
  }

  lemma OneMoreWindow(n: nat, cfg: Config)
    requires cfg.Usable() && n >= cfg.window
    ensures Tolerated(n, cfg) == Tolerated(n - cfg.window, cfg) + cfg.tripRate * cfg.window as real
  {
    var q := (n - cfg.window) / cfg.window;
    DivStep(n, cfg.window);
    var c := cfg.tripRate * cfg.window as real;
    assert c * (q + 1) as real == c * q as real + c;
  }

  lemma Multiples(k: int, w: int)
    requires k >= 1 && w > 0
    ensures k * w >= w
  {
  }

  lemma DivUnique(n: int, w: int, q: int, r: int)
    requires w > 0 && n == q * w + r && 0 <= r < w
    ensures n / w == q && n % w == r
  {
    var q', r' := n / w, n % w;
    assert (q' - q) * w == r - r';
    if q' > q {
      Multiples(q' - q, w);
    } else if q' < q {
      assert (q - q') * w == r' - r;
      Multiples(q - q', w);
    }
  }

  lemma DivStep(n: nat, w: nat)
    requires 0 < w <= n
    ensures n / w == (n - w) / w + 1 && n % w == (n - w) % w
  {
    var q, r := (n - w) / w, (n - w) % w;
    assert n == (q + 1) * w + r;
    DivUnique(n, w, q + 1, r);
  }

  lemma {:induction false} QuietIsTolerable(h: seq<bool>, cfg: Config)
    requires cfg.Usable() && Quiet(h, cfg)
    ensures Count(h) as real <= Tolerated(|h|, cfg)
  {
    hide Implausible, Count, Tolerated, Rate;
    var w := cfg.window;
    assert h[..|h|] == h;
    ImplausibleExactly(Line(w, h, 0, 0), cfg);
    if |h| < w {
      TolerableRest(h, cfg);
    } else {
      var cut := |h| - w;
      var front, block := h[..cut], h[cut..];
      forall k | 0 < k <= |front|
        ensures !Implausible(Line(w, front[..k], 0, 0), cfg)
      {
        assert front[..k] == h[..k];
      }
      QuietIsTolerable(front, cfg);
      assert Last(h, w) == block;
      assert h == front + block;
      CountConcat(front, block);
      OneMoreWindow(|h|, cfg);
    }
  }

  lemma TolerableRest(h: seq<bool>, cfg: Config)
    requires cfg.Usable() && |h| < cfg.window
    requires |h| < cfg.minSamples || Count(h) as real < cfg.tripRate * |h| as real
    ensures Count(h) as real <= Tolerated(|h|, cfg)
  {
    hide Count, Tolerance;
    DivUnique(|h|, cfg.window, 0, |h|);
    BelowRest(Count(h), |h|, cfg);
  }

  lemma BelowRest(count: nat, n: nat, cfg: Config)
    requires count <= n && (n < cfg.minSamples || count as real < cfg.tripRate * n as real)
    ensures count as real <= Tolerance(0, n, cfg)
  {
  }

  // Line p has a recording no Allow has followed yet.
  predicate Pending(es: seq<Event>, p: string, i: nat)
    requires i <= |es|
  {
    i > 0 && if es[i - 1].line == p then es[i - 1].Record? else Pending(es, p, i - 1)
  }

  // One fixed configuration on p, Allow called after each Record, and every
  // Allow on p answering true.
  predicate EnforcingUpTo(s: Lines, es: seq<Event>, p: string, config: Option<Config>, k: nat)
    requires k <= |es|
  {
    forall i | 0 <= i < k && es[i].line == p ::
      && es[i].config == config
      && (es[i].Record? ==> !Pending(es, p, i))
      && (es[i].Allow? ==> Allowed(After(s, es, i), p, config, es[i].t0, es[i].t1).1.allowed)
  }

  function History(s: Lines, p: string): seq<bool> {
    if p in s then s[p].history else []
  }

  // Line p holds n outcomes and, but for a pending last one, no prefix of them
  // was implausible.
  predicate Watched(s: Lines, p: string, cfg: Config, n: nat, pending: bool)
    requires cfg.Usable()
  {
    var h := History(s, p);
    && |h| == n
    && (h != [] ==> s[p].window == cfg.window)
    && (if pending then h != [] && Quiet(h[..|h| - 1], cfg) else Quiet(h, cfg))
  }

  lemma RecordWatched(s: Lines, p: string, suppressed: bool, config: Option<Config>, n: nat)
    requires !Normalise(config).disabled && Watched(s, p, Normalise(config), n, false)
    ensures Watched(Recorded(s, p, suppressed, config), p, Normalise(config), n + 1, true)
  {
    hide Implausible, Normalise;
    var h := History(s, p);
    var a := Recorded(s, p, suppressed, config);
    assert a[p].history == h + [suppressed];
    assert (h + [suppressed])[..|h|] == h;
  }

  lemma AllowWatched(s: Lines, p: string, config: Option<Config>, t0: nat, t1: nat, n: nat, pending: bool)
    requires !Normalise(config).disabled && Watched(s, p, Normalise(config), n, pending)
    requires Allowed(s, p, config, t0, t1).1.allowed
    ensures Watched(Allowed(s, p, config, t0, t1).0, p, Normalise(config), n, false)
  {
    hide Normalise, Rate, Last;
    var cfg := Normalise(config);
    var a := Allowed(s, p, config, t0, t1).0;
    var h := History(s, p);
    assert a[p].history == h && a[p].window == cfg.window;
    forall k | 0 < k <= |h|
      ensures !Implausible(Line(cfg.window, h[..k], 0, 0), cfg)
    {
      if k < |h| {
        assert h[..|h| - 1][..k] == h[..k];
      } else {
        assert h[..k] == h;
      }
    }
  }

  lemma {:induction false} EnforcingWatched(s: Lines, es: seq<Event>, p: string, config: Option<Config>, k: nat)
    requires k <= |es| && !Normalise(config).disabled
    requires History(s, p) == [] && EnforcingUpTo(s, es, p, config, k)
    ensures Watched(After(s, es, k), p, Normalise(config), Recordings(es, p, 0, k), Pending(es, p, k))
    decreases k
  {
    hide Watched, Allowed, Recorded, Normalise;
    if k == 0 {
      assert Watched(s, p, Normalise(config), 0, false) by { EmptyWatched(s, p, Normalise(config)); }
    } else {
      EnforcingWatched(s, es, p, config, k - 1);
      var a, e, n := After(s, es, k - 1), es[k - 1], Recordings(es, p, 0, k - 1);
      if e.line != p {
        OtherWatched(a, e, p, Normalise(config), n, Pending(es, p, k - 1));
      } else if e.Record? {
        RecordWatched(a, p, e.suppressed, config, n);
      } else {
        AllowWatched(a, p, config, e.t0, e.t1, n, Pending(es, p, k - 1));
      }
    }
  }

  lemma EmptyWatched(s: Lines, p: string, cfg: Config)
    requires cfg.Usable() && History(s, p) == []
    ensures Watched(s, p, cfg, 0, false)
  {
  }

  lemma OtherWatched(s: Lines, e: Event, p: string, cfg: Config, n: nat, pending: bool)
    requires cfg.Usable() && e.line != p && Watched(s, p, cfg, n, pending)
    ensures Watched(Step(s, e), p, cfg, n, pending)
  {
    OtherLinesUntouched(s, e, p);
  }

  // From a reset on, while enforcement stays on, the suppressed outcomes among n
  // recordings stay within what n outcomes may hold.
  lemma SuppressionIsBounded(s: Lines, es: seq<Event>, p: string, config: Option<Config>)
    requires !Normalise(config).disabled && History(s, p) == []
    requires EnforcingUpTo(s, es, p, config, |es|) && !Pending(es, p, |es|)
    ensures var h := History(After(s, es, |es|), p);
            && |h| == Recordings(es, p, 0, |es|)
            && Count(h) as real <= Tolerated(|h|, Normalise(config))
  {
    hide Normalise;
    EnforcingWatched(s, es, p, config, |es|);
    QuietIsTolerable(History(After(s, es, |es|), p), Normalise(config));
  }
}

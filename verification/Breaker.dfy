// The suppression circuit breaker (unica/pkg/domain/breaker.go).
//
// A product line's state is specified by the plain list of outcomes recorded
// since its last reset. The class below keeps a ring buffer and a running count
// instead; its contracts say that the ring always describes the last `window`
// entries of that list. What the breaker promises is then proved about runs of
// the specification.
module Breaker {
  import opened Options

  const DEFAULT_TRIP_RATE: real := 0.25
  const DEFAULT_MIN_SAMPLES := 20
  const DEFAULT_WINDOW := 100
  const DEFAULT_COOLDOWN_SECONDS := 900
  const NANOSECONDS := 1_000_000_000

  // ---------- Configuration ----------

  datatype Config = Config(disabled: bool, tripRate: real, minSamples: int,
                           window: int, cooldownSeconds: int)
  {
    // What Allow and Record may rely on: a rate in (0, 1], a positive sample
    // floor and a window that can reach it.
    predicate Usable() {
      0.0 < tripRate <= 1.0 && 0 < minSamples <= window && 0 < cooldownSeconds
    }

    function Cooldown(): int { cooldownSeconds * NANOSECONDS }
  }

  function DefaultConfig(): Config {
    Config(false, DEFAULT_TRIP_RATE, DEFAULT_MIN_SAMPLES, DEFAULT_WINDOW, DEFAULT_COOLDOWN_SECONDS)
  }

  // Fills every unusable field. A window below the sample floor is raised to it,
  // because the floor could otherwise never be reached.
  function Normalise(c: Option<Config>): (out: Config)
    ensures out.Usable()
    ensures c.Some? && c.value.Usable() ==> out == c.value
    ensures c.Some? ==> out.disabled == c.value.disabled
    ensures c.Some? && c.value.minSamples > 0 ==> out.minSamples == c.value.minSamples
    ensures c.Some? && c.value.window > 0 ==> out.window >= c.value.window
    ensures c.Some? && c.value.window > 0 && out.window > c.value.window ==> out.window == out.minSamples
    ensures c.Some? && 0.0 < c.value.tripRate <= 1.0 ==> out.tripRate == c.value.tripRate
    ensures c.Some? && c.value.cooldownSeconds > 0 ==> out.cooldownSeconds == c.value.cooldownSeconds
    ensures c.None? ==> out == Config(false, 0.25, 20, 100, 900)
    ensures c.Some? ==>
              && (!(0.0 < c.value.tripRate <= 1.0) ==> out.tripRate == 0.25)
              && (c.value.minSamples <= 0 ==> out.minSamples == 20)
              && (c.value.window <= 0 ==> out.window == if out.minSamples > 100 then out.minSamples else 100)
              && (c.value.cooldownSeconds <= 0 ==> out.cooldownSeconds == 900)
  {
    if c.None? then DefaultConfig() else
    var v := c.value;
    var rate := if v.tripRate <= 0.0 || v.tripRate > 1.0 then DEFAULT_TRIP_RATE else v.tripRate;
    var floor := if v.minSamples <= 0 then DEFAULT_MIN_SAMPLES else v.minSamples;
    var window := if v.window <= 0 then DEFAULT_WINDOW else v.window;
    var cooldown := if v.cooldownSeconds <= 0 then DEFAULT_COOLDOWN_SECONDS else v.cooldownSeconds;
    Config(v.disabled, rate, floor, if window < floor then floor else window, cooldown)
  }

  // ---------- Specification ----------

  // How many of the outcomes would have been suppressed.
  function Count(h: seq<bool>): (n: nat)
    ensures n <= |h|
  {
    if h == [] then 0 else Count(h[..|h| - 1]) + (if h[|h| - 1] then 1 else 0)
  }

  lemma {:induction false} CountConcat(a: seq<bool>, b: seq<bool>)
    ensures Count(a + b) == Count(a) + Count(b)
  {
    if b == [] {
      assert a + b == a;
    } else {
      assert (a + b)[..|a + b| - 1] == a + b[..|b| - 1];
      CountConcat(a, b[..|b| - 1]);
    }
  }

  function Last(h: seq<bool>, w: nat): seq<bool> {
    if |h| <= w then h else h[|h| - w..]
  }

  // One product line: the window it measures over, every outcome since the last
  // reset (oldest first), the instant enforcement is off until, and how often it
  // has tripped. Time is counted in nanoseconds from the zero time.
  datatype Line = Line(window: nat, history: seq<bool>, openUntil: nat, trips: nat)

  type Lines = map<string, Line>

  function Rate(h: seq<bool>): real {
    if h == [] then 0.0 else Count(h) as real / |h| as real
  }

  // Whether the recent outcomes are enough, and bad enough, to trip.
  predicate Implausible(l: Line, cfg: Config) {
    var recent := Last(l.history, l.window);
    |recent| >= cfg.minSamples && Rate(recent) >= cfg.tripRate
  }

  // The line's state with the configured window; a changed window starts over.
  function Resolve(s: Lines, name: string, cfg: Config): Line
    requires cfg.Usable()
  {
    if name !in s then Line(cfg.window, [], 0, 0)
    else if s[name].window != cfg.window then s[name].(window := cfg.window, history := [])
    else s[name]
  }

  function Recorded(s: Lines, name: string, suppressed: bool, config: Option<Config>): Lines {
    var cfg := Normalise(config);
    if cfg.disabled then s
    else
      var s := s[name := Resolve(s, name, cfg)];
      s[name := s[name].(history := s[name].history + [suppressed])]
  }

  datatype Decision = Decision(allowed: bool, tripped: bool)

  // t0 is the clock as Allow compares it, t1 as it starts a cooldown.
  function Allowed(s: Lines, name: string, config: Option<Config>, t0: nat, t1: nat): (Lines, Decision) {
    var cfg := Normalise(config);
    if cfg.disabled then (s, Decision(true, false))
    else
      var s := s[name := Resolve(s, name, cfg)];
      if t0 < s[name].openUntil then (s, Decision(false, false))
      else if Implausible(s[name], cfg) then
        (s[name := Line(s[name].window, [], t1 + cfg.Cooldown(), s[name].trips + 1)], Decision(false, true))
      else (s, Decision(true, false))
  }

  // ---------- The ring buffer ----------

  // The outcomes a ring holds, oldest first. Slots beyond `filled` are leftovers
  // of an earlier reset and never show.
  function Ring(slots: seq<bool>, next: nat, filled: nat): seq<bool>
    requires next < |slots| && filled <= |slots|
  {
    if filled < |slots| then slots[..filled] else slots[next..] + slots[..next]
  }

  lemma CountPush(h: seq<bool>, x: bool)
    ensures Count(h + [x]) == Count(h) + (if x then 1 else 0)
  {
    assert (h + [x])[..|h|] == h;
  }

  lemma CountPop(h: seq<bool>)
    requires h != []
    ensures Count(h[1..]) == Count(h) - (if h[0] then 1 else 0)
  {
    CountPush([], h[0]);
    assert [] + [h[0]] == [h[0]];
    CountConcat([h[0]], h[1..]);
    assert [h[0]] + h[1..] == h;
  }

  // A window after one more outcome: it grows until full, then slides.
  function Slide(recent: seq<bool>, w: nat, x: bool): seq<bool>
    requires |recent| <= w && w > 0
  {
    if |recent| < w then recent + [x] else recent[1..] + [x]
  }

  lemma LastSlides(h: seq<bool>, w: nat, x: bool)
    requires w > 0
    ensures Last(h + [x], w) == Slide(Last(h, w), w, x)
  {
  }

  lemma CountSlides(recent: seq<bool>, w: nat, x: bool)
    requires |recent| <= w && w > 0
    ensures Count(Slide(recent, w, x)) ==
            Count(recent) + (if x then 1 else 0) - (if |recent| == w && recent[0] then 1 else 0)
  {
    if |recent| < w {
      CountPush(recent, x);
    } else {
      CountPush(recent[1..], x);
      CountPop(recent);
    }
  }

  // One slot written: the ring gains the outcome and, when it was full, loses
  // its oldest one.
  lemma RingSlides(slots: seq<bool>, next: nat, filled: nat, x: bool)
    requires next < |slots| && filled <= |slots| && (filled < |slots| ==> next == filled)
    ensures var next' := if next + 1 < |slots| then next + 1 else 0;
            var filled' := if filled < |slots| then filled + 1 else filled;
            Ring(slots[next := x], next', filled') == Slide(Ring(slots, next, filled), |slots|, x)
  {
    var slots' := slots[next := x];
    if filled < |slots| {
      assert slots'[..filled + 1] == slots[..filled] + [x];
      if filled + 1 == |slots| {
        assert slots'[0..] + slots'[..0] == slots'[..filled + 1];
      }
    } else if next + 1 < |slots| {
      assert (slots[next..] + slots[..next])[1..] == slots[next + 1..] + slots[..next];
      assert slots'[next + 1..] == slots[next + 1..];
      assert slots'[..next + 1] == slots[..next] + [x];
    } else {
      assert (slots[next..] + slots[..next])[1..] == slots[..next];
      assert slots'[0..] + slots'[..0] == slots[..next] + [x];
    }
  }

  method NextSlot(next: nat, len: nat) returns (slot: nat)
    requires next < len
    ensures slot == if next + 1 < len then next + 1 else 0
  {
    slot := (next + 1) % len;
  }

  // The ring's fields describe the last |slots| entries of the list h.
  predicate Describes(slots: seq<bool>, next: nat, filled: nat, suppressed: nat, h: seq<bool>) {
    && next < |slots| && filled <= |slots|
    && (filled < |slots| ==> next == filled)
    && Ring(slots, next, filled) == Last(h, |slots|)
    && suppressed == Count(Last(h, |slots|))
  }

  lemma RingPut(slots: seq<bool>, next: nat, filled: nat, suppressed: nat, h: seq<bool>, x: bool)
    requires Describes(slots, next, filled, suppressed, h)
    ensures filled == |slots| && slots[next] ==> suppressed > 0
    ensures Describes(slots[next := x], if next + 1 < |slots| then next + 1 else 0,
                      if filled < |slots| then filled + 1 else filled,
                      suppressed + (if x then 1 else 0) - (if filled == |slots| && slots[next] then 1 else 0),
                      h + [x])
  {
    LastSlides(h, |slots|, x);
    CountSlides(Last(h, |slots|), |slots|, x);
    RingSlides(slots, next, filled, x);
    if filled == |slots| && slots[next] {
      CountPop(Ring(slots, next, filled));
    }
  }

  class BreakerLine {
    var outcomes: array<bool>
    var next: nat
    var filled: nat
    var suppressed: nat
    var openUntil: nat
    var trips: nat
    ghost var history: seq<bool>

    ghost predicate Valid()
      reads this, outcomes
    {
      Describes(outcomes[..], next, filled, suppressed, history)
    }

    ghost function View(): Line
      reads this
    {
      Line(outcomes.Length, history, openUntil, trips)
    }

    constructor (window: nat)
      requires window > 0
      ensures Valid() && fresh(outcomes) && View() == Line(window, [], 0, 0)
    {
      outcomes := new bool[window];
      next, filled, suppressed, openUntil, trips, history := 0, 0, 0, 0, 0, [];
    }

    // Starts the window over without clearing the slots.
    method Reset()
      requires 0 < outcomes.Length
      modifies this
      ensures Valid() && outcomes == old(outcomes)
      ensures View() == old(View()).(history := [])
    {
      next, filled, suppressed, history := 0, 0, 0, [];
    }

    method Resize(window: nat)
      requires window > 0
      modifies this
      ensures Valid() && fresh(outcomes)
      ensures View() == old(View()).(window := window, history := [])
    {
      outcomes := new bool[window];
      Reset();
    }

    method Put(outcome: bool)
      requires Valid()
      modifies this, outcomes
      ensures Valid() && outcomes == old(outcomes)
      ensures View() == old(View()).(history := old(history) + [outcome])
    {
      hide Ring, Last, Count;
      ghost var slots := outcomes[..];
      RingPut(slots, next, filled, suppressed, history, outcome);
      if filled == outcomes.Length && outcomes[next] {
        suppressed := suppressed - 1;
      }
      outcomes[next] := outcome;
      assert outcomes[..] == slots[next := outcome];
      if outcome {
        suppressed := suppressed + 1;
      }
      next := NextSlot(next, outcomes.Length);
      if filled < outcomes.Length {
        filled := filled + 1;
      }
      history := history + [outcome];
    }

    method MeasuredRate() returns (r: real)
      requires Valid()
      ensures filled == |Last(history, outcomes.Length)|
      ensures r == Rate(Last(history, outcomes.Length))
    {
      if filled == 0 {
        r := 0.0;
      } else {
        r := suppressed as real / filled as real;
      }
    }

    // Either the line has never tripped or its cooldown is over; both are decided
    // from the rate observed since the last decision.
    method Judge(cfg: Config) returns (bad: bool)
      requires Valid()
      ensures bad == Implausible(View(), cfg)
    {
      var rate := MeasuredRate();
      bad := filled >= cfg.minSamples && rate >= cfg.tripRate;
    }

    // Starts a cooldown and clears the window, so that the next decision is made
    // from what happens while enforcement is off.
    method Trip(until: nat)
      requires Valid()
      modifies this
      ensures Valid() && outcomes == old(outcomes)
      ensures View() == Line(outcomes.Length, [], until, old(trips) + 1)
    {
      openUntil := until;
      trips := trips + 1;
      Reset();
    }
  }

  // The line object l and its array are the ones kept under name, and its state
  // is what v says.
  ghost predicate Sound(name: string, l: BreakerLine, v: Line, owner: map<object, string>)
    reads l, l.outcomes
  {
    && l in owner && owner[l] == name && l.outcomes in owner && owner[l.outcomes] == name
    && l.Valid() && l.View() == v
  }

  class Breaker {
    var lines: map<string, BreakerLine>
    ghost var view: Lines
    // Which line an object belongs to: no two lines share one.
    ghost var owner: map<object, string>

    ghost predicate Valid()
      reads this, owner.Keys
    {
      && this !in owner
      && (forall p :: p in lines <==> p in view)
      && forall p | p in lines :: lines[p] in owner && lines[p].outcomes in owner && Sound(p, lines[p], view[p], owner)
    }

    constructor ()
      ensures Valid() && view == map[] && owner == map[]
    {
      lines, view, owner := map[], map[], map[];
    }

    method Create(name: string, window: nat) returns (l: BreakerLine)
      requires Valid() && name !in lines && window > 0
      modifies this
      ensures Valid() && fresh(owner.Keys - old(owner.Keys))
      ensures name in lines && l == lines[name] && view == old(view)[name := Line(window, [], 0, 0)]
    {
      hide BreakerLine.Valid, BreakerLine.View;
      l := new BreakerLine(window);
      lines := lines[name := l];
      owner := owner[l := name][l.outcomes := name];
      view := view[name := l.View()];
      forall p | p in lines
        ensures lines[p] in owner && lines[p].outcomes in owner && Sound(p, lines[p], view[p], owner)
      {
        assert p != name ==> old(Sound(p, lines[p], view[p], owner));
      }
    }

    method Resize(name: string, window: nat)
      requires Valid() && name in lines && window > 0
      modifies this, owner.Keys
      ensures Valid() && fresh(owner.Keys - old(owner.Keys))
      ensures lines == old(lines) && view == old(view)[name := old(view)[name].(window := window, history := [])]
    {
      hide BreakerLine.Valid, BreakerLine.View;
      var l := lines[name];
      assert Sound(name, l, view[name], owner);
      l.Resize(window);
      owner := owner[l.outcomes := name];
      view := view[name := l.View()];
      forall p | p in lines
        ensures lines[p] in owner && lines[p].outcomes in owner && Sound(p, lines[p], view[p], owner)
      {
        assert p != name ==> old(Sound(p, lines[p], view[p], owner));
      }
    }

    // The line's state, created on first use and resized when the configured
    // window changed.
    method LineOf(name: string, cfg: Config) returns (l: BreakerLine)
      requires Valid() && cfg.Usable()
      modifies this, owner.Keys
      ensures Valid() && fresh(owner.Keys - old(owner.Keys))
      ensures name in lines && l == lines[name] && l.Valid() && name in view && l.View() == view[name]
      ensures view == old(view)[name := Resolve(old(view), name, cfg)]
    {
      hide BreakerLine.Valid;
      if name !in lines {
        l := Create(name, cfg.window);
      } else {
        l := lines[name];
        if l.outcomes.Length != cfg.window {
          Resize(name, cfg.window);
        }
      }
      assert Sound(name, l, view[name], owner);
    }

    method PutOn(name: string, outcome: bool)
      requires Valid() && name in lines
      modifies this, owner.Keys
      ensures Valid() && owner == old(owner)
      ensures view == old(view)[name := old(view)[name].(history := old(view)[name].history + [outcome])]
    {
      hide BreakerLine.Valid;
      lines[name].Put(outcome);
      view := view[name := lines[name].View()];
    }

    method TripOn(name: string, until: nat)
      requires Valid() && name in lines
      modifies this, owner.Keys
      ensures Valid() && owner == old(owner)
      ensures view == old(view)[name := Line(old(view)[name].window, [], until, old(view)[name].trips + 1)]
    {
      hide BreakerLine.Valid;
      lines[name].Trip(until);
      view := view[name := lines[name].View()];
    }

    method Allow(name: string, config: Option<Config>, t0: nat, t1: nat) returns (d: Decision)
      requires Valid()
      modifies this, owner.Keys
      ensures Valid() && fresh(owner.Keys - old(owner.Keys))
      ensures (view, d) == Allowed(old(view), name, config, t0, t1)
    {
      hide BreakerLine.Valid, Breaker.Valid, Normalise, Implausible;
      var cfg := Normalise(config);
      if cfg.disabled {
        return Decision(true, false);
      }
      var l := LineOf(name, cfg);
      if t0 < l.openUntil {
        return Decision(false, false);
      }
      var bad := l.Judge(cfg);
      if bad {
        TripOn(name, t1 + cfg.Cooldown());
        return Decision(false, true);
      }
      d := Decision(true, false);
    }

    method Record(name: string, suppressed: bool, config: Option<Config>)
      requires Valid()
      modifies this, owner.Keys
      ensures Valid() && fresh(owner.Keys - old(owner.Keys))
      ensures view == Recorded(old(view), name, suppressed, config)
    {
      hide BreakerLine.Valid, Normalise;
      var cfg := Normalise(config);
      if cfg.disabled {
        return;
      }
      var _ := LineOf(name, cfg);
      PutOn(name, suppressed);
    }

    method Open(name: string, now: nat) returns (open: bool)
      requires Valid()
      ensures open <==> name in view && now < view[name].openUntil
    {
      if name !in lines {
        return false;
      }
      open := now < lines[name].openUntil;
    }
  }
}

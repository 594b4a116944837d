/** The autoscaler's decision loop: a sliding window of queue depths, two thresholds and two cooldowns. */
module Autoscaler {
  import opened Rows

  datatype Config = Config(up: real, down: real, upCooldown: Time, downCooldown: Time, fraction: real, window: nat)

  const DEFAULTS: Config := Config(5.0, 1.0, 300 * SECOND, 600 * SECOND, 0.25, 3)

  /** What one tick reads; `drained` says whether a scale-down, if chosen, found and drained a worker. */
  datatype Reading = Reading(now: Time, queued: nat, ready: nat, busy: nat, drained: bool)

  datatype Action = Hold | ScaleUp(delta: int) | ScaleDown

  /** None stands for the zero time, which every cooldown has long passed. */
  datatype Memory = Memory(samples: seq<nat>, lastUp: Option<Time>, lastDown: Option<Time>)

  function Recorded(samples: seq<nat>, depth: nat, window: nat): seq<nat> {
    var s := samples + [depth];
    if |s| > window then s[|s| - window..] else s
  }

  predicate FlatOrRising(samples: seq<nat>, window: nat) {
    |samples| >= window && forall i | 1 <= i < |samples| :: samples[i - 1] <= samples[i]
  }

  function Pressure(cfg: Config, r: Reading): real {
    if r.ready + r.busy > 0 then r.queued as real / (r.ready + r.busy) as real
    else if r.queued > 0 then cfg.up + 1.0
    else 0.0
  }

  predicate Elapsed(last: Option<Time>, now: Time, cooldown: Time) { last.None? || now - last.value >= cooldown }

  function Delta(cfg: Config, r: Reading): int {
    var d := ((r.ready + r.busy) as real * cfg.fraction).Floor;
    if d < 1 then 1 else d
  }

  function Decide(cfg: Config, m: Memory, r: Reading): Action {
    var samples := Recorded(m.samples, r.queued, cfg.window);
    if Pressure(cfg, r) > cfg.up && FlatOrRising(samples, cfg.window) && Elapsed(m.lastUp, r.now, cfg.upCooldown) then ScaleUp(Delta(cfg, r))
    else if Pressure(cfg, r) < cfg.down && r.ready > 0 && Elapsed(m.lastDown, r.now, cfg.downCooldown) then ScaleDown
    else Hold
  }

  function Ticked(cfg: Config, m: Memory, r: Reading): Memory {
    var a := Decide(cfg, m, r);
    Memory(Recorded(m.samples, r.queued, cfg.window),
           if a.ScaleUp? then Some(r.now) else m.lastUp,
           if a.ScaleDown? && r.drained then Some(r.now) else m.lastDown)
  }

  class Scaler {
    const cfg: Config
    var samples: seq<nat>
    var lastUp: Option<Time>
    var lastDown: Option<Time>
    ghost var log: seq<Reading>   // every reading so far

    /** The memory is the one the readings so far lead to. */
    ghost predicate Valid()
      reads this
    {
      View() == Run(cfg, log)
    }

    function View(): Memory
      reads this
    {
      Memory(samples, lastUp, lastDown)
    }

    constructor (cfg: Config)
      ensures Valid() && log == [] && this.cfg == cfg
    {
      this.cfg, log := cfg, [];
      samples, lastUp, lastDown := [], None, None;
    }

    method RecordSample(depth: nat)
      modifies this`samples
      ensures samples == Recorded(old(samples), depth, cfg.window)
    {
      samples := samples + [depth];
      if |samples| > cfg.window { samples := samples[|samples| - cfg.window..]; }
    }

    method TrendIsFlatOrRising() returns (b: bool)
      ensures b == FlatOrRising(samples, cfg.window)
    {
      if |samples| < cfg.window { return false; }
      var i := 1;
      while i < |samples|
        invariant 1 <= i
        invariant forall k | 1 <= k < i && k < |samples| :: samples[k - 1] <= samples[k]
      {
        if samples[i] < samples[i - 1] { return false; }
        i := i + 1;
      }
      b := true;
    }

    /**
     * It scales up exactly with a full window of non-decreasing depths, above the threshold, and a cooldown after the last
     * time; failing that, it scales down exactly below the other threshold with a READY worker and a cooldown after the last
     * completed drain.
     */
    method Tick(r: Reading) returns (a: Action)
      requires Valid()
      modifies this
      ensures Valid() && log == old(log) + [r]
      ensures a == Decide(cfg, Run(cfg, old(log)), r)
      ensures a.ScaleUp? <==> Rising(log, cfg.window) && Pressure(cfg, r) > cfg.up && Rested(cfg, old(log), true, r.now)
      ensures a.ScaleUp? ==> IsShare((r.ready + r.busy) as real * cfg.fraction, a.delta)
      ensures a.ScaleDown? <==> !a.ScaleUp? && Pressure(cfg, r) < cfg.down && r.ready > 0 && Rested(cfg, old(log), false, r.now)
    {
      ghost var before := log;
      ghost var m := View();
      TickIsJustified(cfg, before, r);
      DeltaIsShare(cfg, r);
      RecordSample(r.queued);
      var trend := TrendIsFlatOrRising();
      var pressure := Pressure(cfg, r);
      a := Hold;
      if pressure > cfg.up && trend && (lastUp.None? || r.now - lastUp.value >= cfg.upCooldown) {
        a := ScaleUp(Delta(cfg, r));
        lastUp := Some(r.now);
      } else if pressure < cfg.down && r.ready > 0 && (lastDown.None? || r.now - lastDown.value >= cfg.downCooldown) {
        a := ScaleDown;
        if r.drained { lastDown := Some(r.now); }
      }
      log := log + [r];
      assert log[..|before|] == before;
      assert View() == Ticked(cfg, m, r);
    }
  }

  // ---- sequences of ticks ----

  function Run(cfg: Config, rs: seq<Reading>): Memory {
    if rs == [] then Memory([], None, None) else Ticked(cfg, Run(cfg, rs[..|rs| - 1]), rs[|rs| - 1])
  }

  function Depths(rs: seq<Reading>): (d: seq<nat>)
    ensures |d| == |rs|
  {
    if rs == [] then [] else Depths(rs[..|rs| - 1]) + [rs[|rs| - 1].queued]
  }

  /** The buffer holds the last min(n, window) recorded depths. */
  lemma {:induction false} SamplesAreTheLastDepths(cfg: Config, rs: seq<Reading>)
    ensures var n := if |rs| < cfg.window then |rs| else cfg.window;
            Run(cfg, rs).samples == Depths(rs)[|rs| - n..]
  {
    if rs != [] {
      var rest := rs[..|rs| - 1];
      SamplesAreTheLastDepths(cfg, rest);
      var d := Depths(rest);
      var n := if |rest| < cfg.window then |rest| else cfg.window;
      assert d[|rest| - n..] + [rs[|rs| - 1].queued] == Depths(rs)[|rest| - n..];
    }
  }

  function ActionAt(cfg: Config, rs: seq<Reading>, k: nat): Action
    requires k < |rs|
  {
    Decide(cfg, Run(cfg, rs[..k]), rs[k])
  }

  lemma {:induction false} DepthAt(rs: seq<Reading>, i: nat)
    requires i < |rs|
    ensures Depths(rs)[i] == rs[i].queued
  {
    if i < |rs| - 1 { DepthAt(rs[..|rs| - 1], i); }
  }

  /** Above the threshold means more queued jobs than the threshold times the fleet; an empty fleet needs only one. */
  lemma AboveThreshold(cfg: Config, r: Reading)
    requires cfg.up >= 0.0
    ensures Pressure(cfg, r) > cfg.up <==>
      if r.ready + r.busy > 0 then r.queued as real > cfg.up * (r.ready + r.busy) as real else r.queued > 0
  {
    if r.ready + r.busy > 0 { Ratio(r.queued as real, (r.ready + r.busy) as real, cfg.up); }
  }

  /** Below the other threshold: fewer queued jobs than that times the fleet; an empty fleet has no READY worker to drain. */
  lemma BelowThreshold(cfg: Config, r: Reading)
    requires r.ready > 0
    ensures Pressure(cfg, r) < cfg.down <==> (r.queued as real) < cfg.down * (r.ready + r.busy) as real
  {
    Ratio(r.queued as real, (r.ready + r.busy) as real, cfg.down);
    Ratio(-(r.queued as real), (r.ready + r.busy) as real, -cfg.down);
    assert -(r.queued as real) / (r.ready + r.busy) as real == -Pressure(cfg, r);
  }

  lemma Ratio(x: real, y: real, z: real)
    requires y > 0.0
    ensures x / y > z <==> x > z * y
  {
    var p := x / y;
    assert p * y == x;
    if p > z { assert (p - z) * y > 0.0; } else { assert (z - p) * y >= 0.0; }
  }

  /** Decide scales up exactly under these three conditions. */
  lemma ScaleUpMeans(cfg: Config, m: Memory, r: Reading)
    ensures Decide(cfg, m, r).ScaleUp? <==>
      Pressure(cfg, r) > cfg.up && FlatOrRising(Recorded(m.samples, r.queued, cfg.window), cfg.window) && Elapsed(m.lastUp, r.now, cfg.upCooldown)
  {
  }

  /** A scale-up has a full window of non-decreasing depths behind it and stands above the threshold. */
  lemma ScaleUpIsJustified(cfg: Config, rs: seq<Reading>, k: nat)
    requires k < |rs| && ActionAt(cfg, rs, k).ScaleUp?
    ensures k + 1 >= cfg.window && Pressure(cfg, rs[k]) > cfg.up
    ensures forall i | k + 1 - cfg.window < i <= k :: rs[i - 1].queued <= rs[i].queued
  {
    var upto := rs[..k + 1];
    assert upto[..k] == rs[..k];
    ScaleUpMeans(cfg, Run(cfg, rs[..k]), rs[k]);
    WindowIsFlatOrRising(cfg, upto);
    forall i | k + 1 - cfg.window < i <= k
      ensures rs[i - 1].queued <= rs[i].queued
    {
      assert upto[i - 1] == rs[i - 1] && upto[i] == rs[i];
    }
  }

  /** The last `window` readings exist and their depths never fall. */
  predicate Rising(rs: seq<Reading>, window: nat) {
    |rs| >= window && forall i | |rs| - window < i < |rs| :: rs[i - 1].queued <= rs[i].queued
  }

  lemma WindowIsFlatOrRising(cfg: Config, rs: seq<Reading>)
    requires rs != [] && FlatOrRising(Run(cfg, rs).samples, cfg.window)
    ensures Rising(rs, cfg.window)
  {
    SamplesAreTheLastDepths(cfg, rs);
    var samples := Run(cfg, rs).samples;
    forall i | |rs| - cfg.window < i < |rs|
      ensures rs[i - 1].queued <= rs[i].queued
    {
      DepthAt(rs, i - 1);
      DepthAt(rs, i);
      var at := i - (|rs| - cfg.window);
      assert samples[at] == Depths(rs)[i] && samples[at - 1] == Depths(rs)[i - 1];
    }
  }

  // ---- cooldowns ----

  /** The times at which a run scaled up, or completed a drain. */
  function Fired(cfg: Config, rs: seq<Reading>, up: bool): seq<Time> {
    if rs == [] then []
    else
      var rest, r := rs[..|rs| - 1], rs[|rs| - 1];
      var a := Decide(cfg, Run(cfg, rest), r);
      Fired(cfg, rest, up) + (if (up && a.ScaleUp?) || (!up && a.ScaleDown? && r.drained) then [r.now] else [])
  }

  function Cooldown(cfg: Config, up: bool): Time { if up then cfg.upCooldown else cfg.downCooldown }

  predicate Spaced(ts: seq<Time>, gap: Time) { forall i | 1 <= i < |ts| :: ts[i] - ts[i - 1] >= gap }

  lemma {:induction false} FiringsAreSpaced(cfg: Config, rs: seq<Reading>, up: bool)
    ensures var ts := Fired(cfg, rs, up);
            && Spaced(ts, Cooldown(cfg, up))
            && (if up then Run(cfg, rs).lastUp else Run(cfg, rs).lastDown) == (if ts == [] then None else Some(ts[|ts| - 1]))
  {
    if rs != [] { FiringsAreSpaced(cfg, rs[..|rs| - 1], up); }
  }

  function Last(ts: seq<Time>): Time
    requires ts != []
  {
    ts[|ts| - 1]
  }

  /** The last firing, if any, lies at least one cooldown back. */
  predicate Rested(cfg: Config, rs: seq<Reading>, up: bool, now: Time) {
    Fired(cfg, rs, up) != [] ==> now - Last(Fired(cfg, rs, up)) >= Cooldown(cfg, up)
  }

  lemma TickIsJustified(cfg: Config, rs: seq<Reading>, r: Reading)
    ensures Decide(cfg, Run(cfg, rs), r).ScaleUp? <==>
      Rising(rs + [r], cfg.window) && Pressure(cfg, r) > cfg.up && Rested(cfg, rs, true, r.now)
    ensures Decide(cfg, Run(cfg, rs), r).ScaleDown? <==>
      !Decide(cfg, Run(cfg, rs), r).ScaleUp? && Pressure(cfg, r) < cfg.down && r.ready > 0 && Rested(cfg, rs, false, r.now)
  {
    RestedIff(cfg, rs, true, r.now);
    RestedIff(cfg, rs, false, r.now);
    ScaleUpMeans(cfg, Run(cfg, rs), r);
    RisingIff(cfg, rs, r);
  }

  lemma RestedIff(cfg: Config, rs: seq<Reading>, up: bool, now: Time)
    ensures Rested(cfg, rs, up, now) <==> Elapsed(if up then Run(cfg, rs).lastUp else Run(cfg, rs).lastDown, now, Cooldown(cfg, up))
  {
    FiringsAreSpaced(cfg, rs, up);
    var ts := Fired(cfg, rs, up);
    if ts != [] { assert Last(ts) == ts[|ts| - 1]; }
  }

  lemma RisingIff(cfg: Config, rs: seq<Reading>, r: Reading)
    ensures Rising(rs + [r], cfg.window) <==> FlatOrRising(Recorded(Run(cfg, rs).samples, r.queued, cfg.window), cfg.window)
  {
    assert (rs + [r])[..|rs|] == rs;
    if FlatOrRising(Run(cfg, rs + [r]).samples, cfg.window) { WindowIsFlatOrRising(cfg, rs + [r]); }
    if Rising(rs + [r], cfg.window) { RisingIsFlat(cfg, rs + [r]); }
  }

  lemma RisingIsFlat(cfg: Config, rs: seq<Reading>)
    requires Rising(rs, cfg.window)
    ensures FlatOrRising(Run(cfg, rs).samples, cfg.window)
  {
    SamplesAreTheLastDepths(cfg, rs);
    var samples, from := Run(cfg, rs).samples, |rs| - cfg.window;
    forall i | 1 <= i < |samples|
      ensures samples[i - 1] <= samples[i]
    {
      DepthAt(rs, from + i - 1);
      DepthAt(rs, from + i);
      assert samples[i] == Depths(rs)[from + i] && samples[i - 1] == Depths(rs)[from + i - 1];
      assert rs[from + i - 1].queued <= rs[from + i].queued;
    }
  }

  lemma {:induction false} SpacedSpan(ts: seq<Time>, gap: Time, i: nat, k: nat)
    requires Spaced(ts, gap) && i <= k < |ts|
    ensures ts[k] - ts[i] >= (k - i) * gap
    decreases k
  {
    if i < k {
      SpacedSpan(ts, gap, i, k - 1);
      assert (k - i) * gap == (k - 1 - i) * gap + gap;
    }
  }

  /**
   * Over all tick sequences, the firings that fall within a span number at most span / cooldown + 1; this holds of
   * scale-ups and of completed drains alike.
   */
  lemma FiringsPerSpan(cfg: Config, rs: seq<Reading>, up: bool, i: nat, k: nat, span: nat)
    requires Cooldown(cfg, up) > 0
    requires i <= k < |Fired(cfg, rs, up)| && Fired(cfg, rs, up)[k] - Fired(cfg, rs, up)[i] <= span
    ensures k - i + 1 <= span / Cooldown(cfg, up) + 1
  {
    FiringsAreSpaced(cfg, rs, up);
    var gap := Cooldown(cfg, up);
    SpacedSpan(Fired(cfg, rs, up), gap, i, k);
    assert (k - i) * gap <= span;
    QuotientBound(k - i, gap, span);
  }

  lemma PositiveFactor(x: int, gap: int)
    requires gap > 0 && x * gap > 0
    ensures x > 0
  {
  }

  lemma QuotientBound(n: nat, gap: int, span: nat)
    requires gap > 0 && n * gap <= span
    ensures n <= span / gap
  {
    var q := span / gap;
    assert span < q * gap + gap;
    assert (q + 1 - n) * gap == q * gap + gap - n * gap;
    PositiveFactor(q + 1 - n, gap);
  }

  /** With the defaults scale-ups lie five minutes apart and completed drains ten. */
  lemma DefaultSpacing(rs: seq<Reading>, up: bool, i: nat)
    requires i + 1 < |Fired(DEFAULTS, rs, up)|
    ensures Fired(DEFAULTS, rs, up)[i + 1] - Fired(DEFAULTS, rs, up)[i] >= (if up then 5 else 10) * 60 * SECOND
  {
    FiringsAreSpaced(DEFAULTS, rs, up);
  }

  /** With the defaults a scale-up means more than five queued jobs per worker and three readings that do not fall. */
  lemma DefaultTrigger(rs: seq<Reading>, k: nat)
    requires k < |rs| && ActionAt(DEFAULTS, rs, k).ScaleUp?
    ensures k >= 2 && rs[k - 2].queued <= rs[k - 1].queued <= rs[k].queued
    ensures if rs[k].ready + rs[k].busy > 0 then rs[k].queued > 5 * (rs[k].ready + rs[k].busy) else rs[k].queued > 0
  {
    ScaleUpIsJustified(DEFAULTS, rs, k);
    AboveThreshold(DEFAULTS, rs[k]);
  }

  /** The largest whole number within the share, or one if the share is smaller. */
  predicate IsShare(share: real, delta: int) {
    delta >= 1 && share < delta as real + 1.0 && (delta == 1 || delta as real <= share)
  }

  lemma DeltaIsShare(cfg: Config, r: Reading)
    ensures IsShare((r.ready + r.busy) as real * cfg.fraction, Delta(cfg, r))
  {
  }

  /** With the defaults a scale-up recommends a quarter of the fleet, and at least one worker. */
  lemma DefaultDelta(r: Reading)
    ensures Delta(DEFAULTS, r) == if (r.ready + r.busy) / 4 < 1 then 1 else (r.ready + r.busy) / 4
  {
    var n := r.ready + r.busy;
    var q := n / 4;
    assert q as real <= n as real * 0.25 < q as real + 1.0;
  }
}

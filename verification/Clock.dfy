/**
 The gateway's clamped clock (gateway/src/model.rs `stamp`, and the drain and quiet-clear
 of `ingest` and `sweep`): backward wall steps are folded into a timeline that never runs
 back, and reported once per episode.
 */
module Clock {
  import opened Basics

  datatype Observation = Observation(stepMs: nat, at: nat)

  datatype Clock = Clock(last: nat, lastFaultAt: nat, open: bool, maxStep: nat, pending: Option<Observation>, alarmActive: bool)

  datatype Config = Config(stepThresholdMs: nat, quietSecs: nat)

  const START := Clock(0, 0, false, 0, None, false)

  /** A reading at least the threshold behind the timeline. */
  predicate IsStep(last: nat, wall: nat, cfg: Config) {
    wall + cfg.stepThresholdMs <= last
  }

  function Stamp(c: Clock, wall: nat, cfg: Config): (r: Clock)
    ensures r.last == Max(wall, c.last)
  {
    var c1 :=
      if IsStep(c.last, wall, cfg) then
        var step := c.last - wall;
        var c0 := c.(lastFaultAt := c.last);
        if !c.open then c0.(open := true, maxStep := step, pending := Some(Observation(step, c.last)), alarmActive := true)
        else if step > c.maxStep then c0.(maxStep := step)
        else c0
      else if c.open && wall >= c.last then c.(open := false)
      else c;
    c1.(last := Max(wall, c.last))
  }

  /** Whether a sweep at the current end of the timeline reports the recovery. */
  predicate Recovers(c: Clock, cfg: Config) {
    c.alarmActive && !c.open && (if c.last < c.lastFaultAt then 0 else c.last - c.lastFaultAt) >= cfg.quietSecs * 1000
  }

  /** One wall reading: a bus message, or a sweep. */
  datatype Reading = Reading(wall: nat, isSweep: bool)

  datatype Outcome = Outcome(at: nat, observed: Option<Observation>, recovered: bool)

  function Take(c: Clock): Clock {
    c.(pending := None)
  }

  function Read(c: Clock, r: Reading, cfg: Config): (Clock, Outcome) {
    var c1 := Stamp(c, r.wall, cfg);
    var recovered := r.isSweep && Recovers(c1, cfg);
    (Take(c1).(alarmActive := c1.alarmActive && !recovered), Outcome(c1.last, c1.pending, recovered))
  }

  // ------------------------------------------------------------------ whole histories

  function After(rs: seq<Reading>, cfg: Config): Clock
    decreases |rs|
  {
    if rs == [] then START else Read(After(rs[..|rs| - 1], cfg), rs[|rs| - 1], cfg).0
  }

  function Trace(rs: seq<Reading>, cfg: Config): (t: seq<Outcome>)
    ensures |t| == |rs|
    decreases |rs|
  {
    if rs == [] then []
    else Trace(rs[..|rs| - 1], cfg) + [Read(After(rs[..|rs| - 1], cfg), rs[|rs| - 1], cfg).1]
  }

  /** The end of the timeline before reading `i`. */
  function Before(t: seq<Outcome>, i: nat): nat
    requires i <= |t|
  {
    if i == 0 then 0 else t[i - 1].at
  }

  ghost predicate FaultyAt(rs: seq<Reading>, t: seq<Outcome>, i: nat, cfg: Config)
    requires |t| == |rs| && i < |rs|
  {
    rs[i].wall + cfg.stepThresholdMs <= Before(t, i)
  }

  /** The wall has not caught up, by reading `n`, with the observation made at reading `j`. */
  ghost predicate NotCaughtUp(rs: seq<Reading>, t: seq<Outcome>, j: nat, n: nat)
    requires |t| == |rs| && n <= |rs|
  {
    j < n && t[j].observed.Some? && forall k | j < k < n :: rs[k].wall < t[j].at
  }

  /** Reading `n` lies in an open episode. */
  ghost predicate InEpisode(rs: seq<Reading>, t: seq<Outcome>, n: nat)
    requires |t| == |rs| && n <= |rs|
  {
    exists j :: NotCaughtUp(rs, t, j, n)
  }

  ghost predicate Unrecovered(t: seq<Outcome>, j: nat, n: nat)
    requires n <= |t|
  {
    j < n && t[j].observed.Some? && forall k | j <= k < n :: !t[k].recovered
  }

  /** A fault was reported before reading `n` and its recovery was not. */
  ghost predicate Reported(t: seq<Outcome>, n: nat)
    requires n <= |t|
  {
    exists j :: Unrecovered(t, j, n)
  }

  ghost predicate QuietSince(rs: seq<Reading>, t: seq<Outcome>, n: nat, at: nat, cfg: Config)
    requires |t| == |rs| && n <= |rs|
  {
    forall k | 0 <= k < n :: FaultyAt(rs, t, k, cfg) ==> t[k].at + cfg.quietSecs * 1000 <= at
  }

  /** What the clock remembers, in terms of what it was shown and has answered. */
  ghost predicate Remembers(c: Clock, rs: seq<Reading>, t: seq<Outcome>, cfg: Config)
    requires |t| == |rs|
  {
    var n := |rs|;
    && c.last == Before(t, n) && c.pending.None? && c.lastFaultAt <= c.last
    && (c.open ==> c.lastFaultAt == c.last)
    && (c.open <==> InEpisode(rs, t, n))
    && (c.alarmActive <==> Reported(t, n))
    && (c.open ==> c.alarmActive)
    && (forall k | 0 <= k < n :: FaultyAt(rs, t, k, cfg) ==> t[k].at <= c.lastFaultAt)
    && (c.alarmActive ==> exists k :: 0 <= k < n && FaultyAt(rs, t, k, cfg) && t[k].at == c.lastFaultAt)
    && (forall j | 0 <= j < n :: t[j].at <= c.last)
    && (forall j | 0 <= j < n :: NotCaughtUp(rs, t, j, n) ==> t[j].at == c.last)
  }

  lemma EpisodeExtends(rs: seq<Reading>, t: seq<Outcome>, r: Reading, o: Outcome, j: int)
    requires |t| == |rs|
    ensures 0 <= j < |rs| ==>
              (NotCaughtUp(rs + [r], t + [o], j, |rs| + 1) <==> NotCaughtUp(rs, t, j, |rs|) && r.wall < t[j].at)
    ensures j == |rs| ==> (NotCaughtUp(rs + [r], t + [o], j, |rs| + 1) <==> o.observed.Some?)
    ensures 0 <= j < |rs| ==> (Unrecovered(t + [o], j, |rs| + 1) <==> Unrecovered(t, j, |rs|) && !o.recovered)
    ensures j == |rs| ==> (Unrecovered(t + [o], j, |rs| + 1) <==> o.observed.Some? && !o.recovered)
  {
    var rs', t' := rs + [r], t + [o];
    if 0 <= j < |rs| {
      if NotCaughtUp(rs', t', j, |rs| + 1) {
        assert forall k | j < k < |rs| :: rs'[k] == rs[k];
        assert rs'[|rs|] == r;
      }
      if Unrecovered(t', j, |rs| + 1) {
        assert forall k | j <= k < |rs| :: t'[k] == t[k];
        assert t'[|rs|] == o;
      }
    }
  }

  lemma ReadEpisode(c: Clock, rs: seq<Reading>, t: seq<Outcome>, r: Reading, cfg: Config)
    requires |t| == |rs| && Remembers(c, rs, t, cfg) && cfg.stepThresholdMs > 0
    ensures var (c', o) := Read(c, r, cfg);
            && (c'.open <==> InEpisode(rs + [r], t + [o], |rs| + 1))
            && (forall j | 0 <= j <= |rs| :: NotCaughtUp(rs + [r], t + [o], j, |rs| + 1) ==> (t + [o])[j].at == c'.last)
            && (c'.alarmActive <==> Reported(t + [o], |rs| + 1))
  {
    var (c', o) := Read(c, r, cfg);
    var rs', t', n := rs + [r], t + [o], |rs|;
    forall j: int ensures 0 <= j < n ==>
              (NotCaughtUp(rs', t', j, n + 1) <==> NotCaughtUp(rs, t, j, n) && r.wall < t[j].at)
            ensures 0 <= j < n ==> (Unrecovered(t', j, n + 1) <==> Unrecovered(t, j, n) && !o.recovered) {
      EpisodeExtends(rs, t, r, o, j);
    }
    EpisodeExtends(rs, t, r, o, n);
    hide NotCaughtUp, Unrecovered, QuietSince, FaultyAt;
    if c'.open {
      if c.open {
        var j :| 0 <= j && NotCaughtUp(rs, t, j, n);
        assert NotCaughtUp(rs', t', j, n + 1);
      } else {
        assert NotCaughtUp(rs', t', n, n + 1);
      }
    }
    if c'.alarmActive {
      if c.alarmActive {
        var j :| 0 <= j && Unrecovered(t, j, n);
        assert Unrecovered(t', j, n + 1);
      } else {
        assert Unrecovered(t', n, n + 1);
      }
    }
  }

  lemma ReadFaults(c: Clock, rs: seq<Reading>, t: seq<Outcome>, r: Reading, cfg: Config)
    requires |t| == |rs| && Remembers(c, rs, t, cfg) && cfg.stepThresholdMs > 0
    ensures var (c', o) := Read(c, r, cfg);
            var rs', t', n := rs + [r], t + [o], |rs|;
            && (forall k | 0 <= k <= n :: FaultyAt(rs', t', k, cfg) ==> t'[k].at <= c'.lastFaultAt)
            && (c'.alarmActive ==> exists k :: 0 <= k <= n && FaultyAt(rs', t', k, cfg) && t'[k].at == c'.lastFaultAt)
  {
    var (c', o) := Read(c, r, cfg);
    var rs', t', n := rs + [r], t + [o], |rs|;
    forall k | 0 <= k < n ensures FaultyAt(rs', t', k, cfg) <==> FaultyAt(rs, t, k, cfg) {
      assert rs'[k] == rs[k] && Before(t', k) == Before(t, k);
    }
    assert FaultyAt(rs', t', n, cfg) <==> IsStep(c.last, r.wall, cfg) by { assert Before(t', n) == Before(t, n); }
    assert t'[n] == o;
    hide FaultyAt, InEpisode, Reported;
    if c'.alarmActive && !IsStep(c.last, r.wall, cfg) {
      var k :| 0 <= k < n && FaultyAt(rs, t, k, cfg) && t[k].at == c.lastFaultAt;
      assert FaultyAt(rs', t', k, cfg) && t'[k].at == c'.lastFaultAt;
    }
  }

  lemma ReadRemembers(c: Clock, rs: seq<Reading>, t: seq<Outcome>, r: Reading, cfg: Config)
    requires |t| == |rs| && Remembers(c, rs, t, cfg) && cfg.stepThresholdMs > 0
    ensures var (c', o) := Read(c, r, cfg);
            Remembers(c', rs + [r], t + [o], cfg)
  {
    ReadEpisode(c, rs, t, r, cfg);
    ReadFaults(c, rs, t, r, cfg);
    hide FaultyAt, InEpisode, Reported, NotCaughtUp, QuietSince;
  }

  lemma {:induction false} AlwaysRemembers(rs: seq<Reading>, cfg: Config)
    requires cfg.stepThresholdMs > 0
    ensures Remembers(After(rs, cfg), rs, Trace(rs, cfg), cfg)
    decreases |rs|
  {
    if rs != [] {
      var n := |rs| - 1;
      AlwaysRemembers(rs[..n], cfg);
      ReadRemembers(After(rs[..n], cfg), rs[..n], Trace(rs[..n], cfg), rs[n], cfg);
      assert rs == rs[..n] + [rs[n]];
    }
  }

  /** Clock episodes, for any history `rs` of wall readings and any next reading `r`: the
      timeline never runs back; an observation is surfaced exactly for a faulty reading outside
      an episode, and at once; inside an episode the timeline stands still; and a sweep reports
      recovery exactly when a fault was reported and not yet recovered, no episode is open, and
      every faulty reading lies a full quiet window in the past. */
  lemma ClockEpisodes(rs: seq<Reading>, r: Reading, cfg: Config)
    requires cfg.stepThresholdMs > 0
    ensures var t := Trace(rs, cfg);
            var o := Read(After(rs, cfg), r, cfg).1;
            var n, end := |rs|, Before(t, |rs|);
            var rs', t' := rs + [r], t + [o];
            && o.at == Max(r.wall, end)
            && (o.observed.Some? <==> r.wall + cfg.stepThresholdMs <= end && !InEpisode(rs, t, n))
            && (o.observed.Some? ==> o.observed.value == Observation(end - r.wall, end))
            && (InEpisode(rs', t', n + 1) ==> o.at == end)
            && (o.recovered <==>
                  r.isSweep && Reported(t, n) && !InEpisode(rs', t', n + 1) && QuietSince(rs', t', n + 1, o.at, cfg))
  {
    AlwaysRemembers(rs, cfg);
    ReadRemembers(After(rs, cfg), rs, Trace(rs, cfg), r, cfg);
  }
}

/**
 The bus-rate meter (gateway/src/model.rs `ThroughputMeter`): per-second counts of the
 stamped timeline, the last sixty seconds that saw a message.
 */
module Throughput {
  import opened Basics

  const KEPT: nat := 60

  /** Messages counted in one second. */
  datatype Second = Second(sec: nat, count: nat)

  function Bump(seconds: seq<Second>, sec: nat): seq<Second> {
    if seconds != [] && seconds[|seconds| - 1].sec == sec then
      seconds[|seconds| - 1 := Second(sec, seconds[|seconds| - 1].count + 1)]
    else seconds + [Second(sec, 1)]
  }

  /** Counts of every second of a stamp history, none forgotten. */
  function AllSeconds(stamps: seq<nat>): seq<Second>
    decreases |stamps|
  {
    if stamps == [] then [] else Bump(AllSeconds(stamps[..|stamps| - 1]), stamps[|stamps| - 1] / 1000)
  }

  /** How many stamps of the history lie in a second. */
  function CountIn(stamps: seq<nat>, sec: nat): nat
    decreases |stamps|
  {
    if stamps == [] then 0
    else CountIn(stamps[..|stamps| - 1], sec) + if stamps[|stamps| - 1] / 1000 == sec then 1 else 0
  }

  predicate NonDecreasing(stamps: seq<nat>) {
    forall i, j | 0 <= i < j < |stamps| :: stamps[i] <= stamps[j]
  }

  ghost predicate Increasing(seconds: seq<Second>) {
    forall i, j | 0 <= i < j < |seconds| :: seconds[i].sec < seconds[j].sec
  }

  class ThroughputMeter {
    var seconds: seq<Second>
    ghost var history: seq<nat>

    ghost predicate Valid()
      reads this
    {
      NonDecreasing(history) && seconds == Newest(AllSeconds(history), 60)
    }

    constructor ()
      ensures Valid() && history == []
    {
      seconds, history := [], [];
    }

    /** Counts a stamp of the timeline, which never runs back. */
    method Record(atMs: nat)
      requires Valid() && (history != [] ==> history[|history| - 1] <= atMs)
      modifies this
      ensures Valid() && history == old(history) + [atMs]
    {
      var sec := atMs / 1000;
      ghost var before := seconds;
      AllSecondsSnoc(history, atMs);
      NonDecreasingSnoc(history, atMs);
      NewestBump(AllSeconds(history), sec, KEPT);
      history := history + [atMs];
      hide AllSeconds, NonDecreasing;
      if |seconds| > 0 && seconds[|seconds| - 1].sec == sec {
        seconds := seconds[|seconds| - 1 := Second(sec, seconds[|seconds| - 1].count + 1)];
        assert seconds == Bump(before, sec) && |seconds| <= KEPT;
        return;
      }
      seconds := seconds + [Second(sec, 1)];
      assert seconds == Bump(before, sec);
      hide Bump;
      while |seconds| > KEPT
        invariant history == old(history) + [atMs]
        invariant Newest(seconds, KEPT) == Newest(Bump(before, sec), KEPT)
        decreases |seconds|
      {
        DropFirst(seconds, KEPT);
        seconds := seconds[1..];
      }
    }

    method CountAt(sec: nat) returns (count: nat)
      requires Valid()
      ensures count == Lookup(seconds, sec)
    {
      for i := 0 to |seconds|
        invariant Lookup(seconds, sec) == Lookup(seconds[i..], sec)
      {
        assert seconds[i..][0] == seconds[i] && seconds[i..][1..] == seconds[i + 1..];
        if seconds[i].sec == sec {
          return seconds[i].count;
        }
      }
      count := 0;
    }

    /** The rate of the current second. */
    method Rate(nowMs: nat) returns (rate: nat)
      requires Valid()
      ensures Recent(history, nowMs) ==> rate == CountIn(history, nowMs / 1000)
    {
      rate := CountAt(nowMs / 1000);
      if Recent(history, nowMs) { WindowExact(history, nowMs, nowMs / 1000); }
    }

    /** The rates of the last thirty seconds. */
    method RecentRates(nowMs: nat) returns (rates: seq<nat>)
      requires Valid()
      ensures |rates| == Min(nowMs / 1000 + 1, 30)
      ensures Recent(history, nowMs) ==> forall i | 0 <= i < |rates| :: rates[i] == CountIn(history, WindowStart(nowMs) + i)
    {
      rates := [];
      for sec := WindowStart(nowMs) to nowMs / 1000 + 1
        invariant |rates| == sec - WindowStart(nowMs)
        invariant Recent(history, nowMs) ==> forall i | 0 <= i < |rates| :: rates[i] == CountIn(history, WindowStart(nowMs) + i)
      {
        var count := CountAt(sec);
        if Recent(history, nowMs) { WindowExact(history, nowMs, sec); }
        rates := rates + [count];
      }
    }
  }

  function WindowStart(nowMs: nat): nat {
    if nowMs / 1000 < 29 then 0 else nowMs / 1000 - 29
  }

  /** The last stamped second is at most thirty seconds past `nowMs` (which reads the raw wall). */
  predicate Recent(history: seq<nat>, nowMs: nat) {
    history == [] || history[|history| - 1] / 1000 <= nowMs / 1000 + 30
  }

  function Lookup(seconds: seq<Second>, sec: nat): nat {
    if seconds == [] then 0 else if seconds[0].sec == sec then seconds[0].count else Lookup(seconds[1..], sec)
  }

  lemma NonDecreasingSnoc(stamps: seq<nat>, at: nat)
    requires NonDecreasing(stamps) && (stamps != [] ==> stamps[|stamps| - 1] <= at)
    ensures NonDecreasing(stamps + [at])
  {
    forall i, j | 0 <= i < j < |stamps + [at]| ensures (stamps + [at])[i] <= (stamps + [at])[j] {
      if j == |stamps| && i < |stamps| - 1 { assert stamps[i] <= stamps[|stamps| - 1]; }
    }
  }

  lemma AllSecondsSnoc(stamps: seq<nat>, at: nat)
    ensures AllSeconds(stamps + [at]) == Bump(AllSeconds(stamps), at / 1000)
  {
    assert (stamps + [at])[..|stamps|] == stamps;
  }

  lemma DropFirst(seconds: seq<Second>, n: nat)
    requires |seconds| > n
    ensures Newest(seconds[1..], n) == Newest(seconds, n)
  {
  }

  lemma NewestBump(all: seq<Second>, sec: nat, n: nat)
    requires n > 0
    ensures Newest(Bump(all, sec), n) == Newest(Bump(Newest(all, n), sec), n)
  {
  }

  lemma {:induction false} LookupAbsent(seconds: seq<Second>, sec: nat)
    requires forall s <- seconds :: s.sec != sec
    ensures Lookup(seconds, sec) == 0
  {
    if seconds != [] { LookupAbsent(seconds[1..], sec); }
  }

  lemma {:induction false} LookupAt(seconds: seq<Second>, i: nat)
    requires i < |seconds| && Increasing(seconds)
    ensures Lookup(seconds, seconds[i].sec) == seconds[i].count
    decreases i
  {
    if i > 0 {
      LookupAt(seconds[1..], i - 1);
    }
  }

  /** The unforgetting meter is exact and strictly increasing. */
  lemma {:induction false} AllSecondsExact(stamps: seq<nat>, sec: nat)
    requires NonDecreasing(stamps)
    ensures var all := AllSeconds(stamps);
            && Increasing(all) && Lookup(all, sec) == CountIn(stamps, sec)
            && (stamps != [] ==> all != [] && all[|all| - 1].sec == stamps[|stamps| - 1] / 1000)
    decreases |stamps|
  {
    if stamps != [] {
      var n := |stamps| - 1;
      AllSecondsExact(stamps[..n], sec);
      var all, s := AllSeconds(stamps[..n]), stamps[n] / 1000;
      assert n > 0 ==> stamps[n - 1] <= stamps[n];
      BumpLookup(all, s, sec);
    }
  }

  lemma BumpLookup(all: seq<Second>, s: nat, sec: nat)
    requires Increasing(all) && (all != [] ==> all[|all| - 1].sec <= s)
    ensures Increasing(Bump(all, s)) && Lookup(Bump(all, s), sec) == Lookup(all, sec) + if s == sec then 1 else 0
  {
    var b := Bump(all, s);
    assert Increasing(b);
    if s == sec {
      LookupAt(b, |b| - 1);
      if |b| == |all| { LookupAt(all, |all| - 1); } else { LookupAbsent(all, sec); }
    } else if exists i :: 0 <= i < |all| && all[i].sec == sec {
      var i :| 0 <= i < |all| && all[i].sec == sec;
      LookupAt(all, i);
      LookupAt(b, i);
    } else {
      LookupAbsent(all, sec);
      LookupAbsent(b, sec);
    }
  }

  /** Strictly increasing seconds that lie above `lo` and end at `hi` are at most `hi - lo` many. */
  lemma {:induction false} SpanBounds(seconds: seq<Second>, i: nat)
    requires Increasing(seconds) && i < |seconds|
    ensures |seconds| - 1 - i <= seconds[|seconds| - 1].sec - seconds[i].sec
    decreases |seconds| - i
  {
    if i + 1 < |seconds| { SpanBounds(seconds, i + 1); }
  }

  /** Exactness: inside the thirty-second window the bounded meter forgets nothing. */
  lemma WindowExact(history: seq<nat>, nowMs: nat, sec: nat)
    requires NonDecreasing(history) && Recent(history, nowMs)
    requires WindowStart(nowMs) <= sec
    ensures Lookup(Newest(AllSeconds(history), KEPT), sec) == CountIn(history, sec)
  {
    AllSecondsExact(history, sec);
    var all := AllSeconds(history);
    var kept := Newest(all, KEPT);
    var cut := |all| - |kept|;
    assert Increasing(kept);
    if exists i :: 0 <= i < |all| && all[i].sec == sec {
      var i :| 0 <= i < |all| && all[i].sec == sec;
      SpanBounds(all, i);
      assert i >= cut && kept[i - cut] == all[i];
      LookupAt(all, i);
      LookupAt(kept, i - cut);
    } else {
      LookupAbsent(all, sec);
      LookupAbsent(kept, sec);
    }
  }

  // ------------------------------------------------------------------ the bound is tight

  /** One message in each of the seconds 0, 1, ..., n - 1. */
  function OnePerSecond(n: nat): (r: seq<nat>)
    ensures |r| == n && forall i | 0 <= i < n :: r[i] == 1000 * i
  {
    seq(n, i => 1000 * i)
  }

  lemma {:induction false} OnePerSecondSeconds(n: nat)
    ensures NonDecreasing(OnePerSecond(n))
    ensures |AllSeconds(OnePerSecond(n))| == n
    ensures forall i | 0 <= i < n :: AllSeconds(OnePerSecond(n))[i] == Second(i, 1)
  {
    if n > 0 {
      OnePerSecondSeconds(n - 1);
      assert OnePerSecond(n)[..n - 1] == OnePerSecond(n - 1);
      assert OnePerSecond(n)[n - 1] / 1000 == n - 1;
    }
  }

  /** With the last stamp thirty-one seconds ahead of the wall, the meter can lose a second of
      its window: after one message in each of 61 seconds it shows 0 for the first of them. */
  lemma ThirtyOneSecondsAheadLoses()
    ensures var history, nowMs := OnePerSecond(61), 29_000;
            && NonDecreasing(history) && history[60] / 1000 == nowMs / 1000 + 31 && WindowStart(nowMs) == 0
            && CountIn(history, 0) == 1 && Lookup(Newest(AllSeconds(history), KEPT), 0) == 0
  {
    var history := OnePerSecond(61);
    OnePerSecondSeconds(61);
    AllSecondsExact(history, 0);
    LookupAt(AllSeconds(history), 0);
    LookupAbsent(Newest(AllSeconds(history), KEPT), 0);
  }
}

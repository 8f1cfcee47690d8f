/**
 The data plane: the gateway's signal table (gateway/src/model.rs `ingest_signal`) and the
 browser store that folds its pushes (ui/src/fleet/signal-store.ts).
 */
module Signals {
  import opened Basics
  import Fleet

  const MAX_POINTS: nat := 60
  const MAX_SERIES: nat := 5000

  datatype SeriesKey = SeriesKey(key: Fleet.Key, instance: string, signal: string)

  datatype Sample = Sample(value: Json, quality: Option<string>, sourceTs: Option<string>, serverTs: Option<string>, qualityRaw: Option<string>)

  datatype Meta = Meta(name: Option<string>, signalId: Option<string>, address: Option<Json>, adapter: Option<string>, endpoint: Option<string>)

  /** A `data` message: the valid samples and the metadata read from its body. */
  datatype Message = Message(id: SeriesKey, samples: seq<Sample>, meta: Meta, headerTs: Option<string>, at: nat)

  datatype Point = Point(at: nat, value: Json, quality: Option<string>, sourceTs: Option<string>, serverTs: Option<string>)

  datatype Series = Series(
    latest: Json, quality: Option<string>, receivedAt: nat, sourceTimestamp: Option<string>,
    sourceTs: Option<string>, serverTs: Option<string>, publishedTs: Option<string>,
    name: Option<string>, signalId: Option<string>,
    address: Option<Json>, adapter: Option<string>, endpoint: Option<string>, qualityRaw: Option<string>,
    points: seq<Point>)

  datatype Table = Table(series: map<SeriesKey, Series>, dropped: nat)

  /** One entry of a `signal` push. */
  datatype Update = Update(
    id: SeriesKey, point: Point, sourceTimestamp: Option<string>, publishedTs: Option<string>,
    name: Option<string>, signalId: Option<string>)

  // ------------------------------------------------------------------ the gateway

  function NewSeries(at: nat): Series {
    Series("null", None, at, None, None, None, None, None, None, None, None, None, None, [])
  }

  function PointOf(sample: Sample, at: nat): Point {
    Point(at, sample.value, sample.quality, sample.sourceTs, sample.serverTs)
  }

  function PointsOf(samples: seq<Sample>, at: nat): (r: seq<Point>)
    ensures |r| == |samples|
    ensures forall i | 0 <= i < |r| ::
              r[i] == Point(at, samples[i].value, samples[i].quality, samples[i].sourceTs, samples[i].serverTs)
  {
    seq(|samples|, i requires 0 <= i < |samples| => PointOf(samples[i], at))
  }

  /** The display timestamp: the sample's own, else its server's, else the message header's. */
  function DisplayTs(sourceTs: Option<string>, serverTs: Option<string>, headerTs: Option<string>): Option<string> {
    sourceTs.OrElse(serverTs).OrElse(headerTs)
  }

  predicate Relabels(s: Series, meta: Meta) {
    (meta.name.Some? && s.name != meta.name) || (meta.signalId.Some? && s.signalId != meta.signalId)
  }

  function Relabelled(s: Series, m: Message): Series {
    s.(name := m.meta.name.OrElse(s.name), signalId := m.meta.signalId.OrElse(s.signalId),
       address := m.meta.address.OrElse(s.address), adapter := m.meta.adapter.OrElse(s.adapter),
       endpoint := m.meta.endpoint.OrElse(s.endpoint))
  }

  function SeriesAfter(s: Series, m: Message): Series
    requires m.samples != []
  {
    var last := m.samples[|m.samples| - 1];
    Relabelled(s, m).(
      latest := last.value, quality := last.quality, receivedAt := m.at,
      sourceTimestamp := DisplayTs(last.sourceTs, last.serverTs, m.headerTs),
      sourceTs := last.sourceTs, serverTs := last.serverTs,
      publishedTs := m.headerTs.OrElse(s.publishedTs),
      qualityRaw := last.qualityRaw.OrElse(s.qualityRaw),
      points := Newest(s.points + PointsOf(m.samples, m.at), MAX_POINTS))
  }

  function UpdateOf(m: Message, sample: Sample, name: Option<string>, signalId: Option<string>): Update {
    Update(m.id, PointOf(sample, m.at), DisplayTs(sample.sourceTs, sample.serverTs, m.headerTs), m.headerTs, name, signalId)
  }

  /** The updates of a push; labels ride along only when one of them changed. */
  function UpdatesFor(s: Series, m: Message): (r: seq<Update>)
    ensures |r| == |m.samples|
  {
    var name := if Relabels(s, m.meta) then Relabelled(s, m).name else None;
    var signalId := if Relabels(s, m.meta) then Relabelled(s, m).signalId else None;
    seq(|m.samples|, i requires 0 <= i < |m.samples| => UpdateOf(m, m.samples[i], name, signalId))
  }

  function SeriesOr(t: Table, id: SeriesKey, at: nat): Series {
    if id in t.series then t.series[id] else NewSeries(at)
  }

  predicate Refused(t: Table, id: SeriesKey) {
    id !in t.series && |t.series| >= MAX_SERIES
  }

  /** The table after a message, and the updates pushed to subscribers ([] = no frame). */
  function IngestSignal(t: Table, m: Message): (Table, seq<Update>) {
    if m.samples == [] then (t, [])
    else if Refused(t, m.id) then (t.(dropped := t.dropped + 1), [])
    else
      var s := SeriesOr(t, m.id, m.at);
      (t.(series := t.series[m.id := SeriesAfter(s, m)]), UpdatesFor(s, m))
  }

  // ------------------------------------------------------------------ the browser

  function NewClientSeries(u: Update): Series {
    NewSeries(u.point.at).(latest := u.point.value)
  }

  function FoldUpdate(s: Series, u: Update, maxPoints: nat): Series {
    s.(latest := u.point.value, quality := u.point.quality, receivedAt := u.point.at,
       sourceTimestamp := u.sourceTimestamp, sourceTs := u.point.sourceTs, serverTs := u.point.serverTs,
       publishedTs := u.publishedTs.OrElse(s.publishedTs),
       name := u.name.OrElse(s.name), signalId := u.signalId.OrElse(s.signalId),
       points := PushShift(s.points, u.point, maxPoints))
  }

  function ApplyUpdate(t: Table, u: Update, maxPoints: nat, maxSeries: nat): Table {
    if u.id !in t.series && |t.series| >= maxSeries then t.(dropped := t.dropped + 1)
    else
      var s := if u.id in t.series then t.series[u.id] else NewClientSeries(u);
      t.(series := t.series[u.id := FoldUpdate(s, u, maxPoints)])
  }

  function FoldUpdates(t: Table, updates: seq<Update>, maxPoints: nat, maxSeries: nat): Table
    decreases |updates|
  {
    if updates == [] then t
    else FoldUpdates(ApplyUpdate(t, updates[0], maxPoints, maxSeries), updates[1..], maxPoints, maxSeries)
  }

  /** A snapshot in full, or in summary mode without the points. */
  function SnapshotOf(t: Table, full: bool): map<SeriesKey, Series> {
    map id <- t.series :: if full then t.series[id] else t.series[id].(points := [])
  }

  datatype PointsReply = PointsReply(id: SeriesKey, points: seq<Point>)

  /** The reply to a request for the points of some series: unknown ones are left out. */
  function PointsFor(t: Table, ids: seq<SeriesKey>): seq<PointsReply> {
    if ids == [] then []
    else if ids[0] in t.series then [PointsReply(ids[0], t.series[ids[0]].points)] + PointsFor(t, ids[1..])
    else PointsFor(t, ids[1..])
  }

  function FoldPoints(t: Table, replies: seq<PointsReply>, maxPoints: nat): Table
    decreases |replies|
  {
    if replies == [] then t
    else
      var r := replies[0];
      var t1 := if r.id in t.series then t.(series := t.series[r.id := t.series[r.id].(points := Newest(r.points, maxPoints))]) else t;
      FoldPoints(t1, replies[1..], maxPoints)
  }

  class SignalStore {
    const maxSeriesPoints: nat
    const maxSeries: nat
    var series: map<SeriesKey, Series>
    var dropped: nat

    ghost function Value(): Table
      reads this
    {
      Table(series, dropped)
    }

    constructor (maxSeriesPoints: nat, maxSeries: nat)
      ensures Value() == Table(map[], 0)
      ensures this.maxSeriesPoints == maxSeriesPoints && this.maxSeries == maxSeries
    {
      this.maxSeriesPoints, this.maxSeries := maxSeriesPoints, maxSeries;
      series, dropped := map[], 0;
    }

    method ApplySnapshot(snapshot: map<SeriesKey, Series>)
      modifies this
      ensures Value() == Table(snapshot, 0)
    {
      series, dropped := snapshot, 0;
    }

    method ApplyUpdates(updates: seq<Update>)
      modifies this
      ensures Value() == FoldUpdates(old(Value()), updates, maxSeriesPoints, maxSeries)
    {
      for i := 0 to |updates|
        invariant FoldUpdates(old(Value()), updates, maxSeriesPoints, maxSeries)
               == FoldUpdates(Value(), updates[i..], maxSeriesPoints, maxSeries)
      {
        var u := updates[i];
        assert updates[i..][0] == u && updates[i..][1..] == updates[i + 1..];
        var state := NewClientSeries(u);
        if u.id in series {
          state := series[u.id];
        } else if |series| >= maxSeries {
          dropped := dropped + 1;
          continue;
        }
        state := state.(latest := u.point.value, receivedAt := u.point.at, quality := u.point.quality);
        state := state.(sourceTimestamp := u.sourceTimestamp, sourceTs := u.point.sourceTs, serverTs := u.point.serverTs);
        if u.publishedTs.Some? { state := state.(publishedTs := u.publishedTs); }
        if u.name.Some? { state := state.(name := u.name); }
        if u.signalId.Some? { state := state.(signalId := u.signalId); }
        var points := state.points + [u.point];
        if |points| > maxSeriesPoints { points := points[1..]; }
        series := series[u.id := state.(points := points)];
      }
    }

    method ApplyPoints(replies: seq<PointsReply>)
      modifies this
      ensures Value() == FoldPoints(old(Value()), replies, maxSeriesPoints)
    {
      for i := 0 to |replies|
        invariant FoldPoints(old(Value()), replies, maxSeriesPoints)
               == FoldPoints(Value(), replies[i..], maxSeriesPoints)
      {
        var r := replies[i];
        assert replies[i..][0] == r && replies[i..][1..] == replies[i + 1..];
        if r.id !in series {
          continue;
        }
        var points := r.points;
        if |points| > maxSeriesPoints { points := points[|points| - maxSeriesPoints..]; }
        series := series[r.id := series[r.id].(points := points)];
      }
    }
  }

  // ------------------------------------------------------------------ simulation

  /** Every field the pushes carry, the points aside. */
  ghost predicate SameCarried(s: Series, c: Series) {
    && s.latest == c.latest && s.quality == c.quality && s.receivedAt == c.receivedAt
    && s.sourceTimestamp == c.sourceTimestamp && s.sourceTs == c.sourceTs && s.serverTs == c.serverTs
    && s.publishedTs == c.publishedTs && s.name == c.name && s.signalId == c.signalId
  }

  ghost predicate SeriesMirror(s: Series, c: Series) {
    SameCarried(s, c) && |s.points| <= MAX_POINTS && IsSuffix(c.points, s.points)
  }

  ghost predicate Mirrors(t: Table, c: Table) {
    && t.series.Keys == c.series.Keys && |t.series| <= MAX_SERIES
    && forall id <- t.series :: SeriesMirror(t.series[id], c.series[id])
  }

  /** The client holds every point the gateway does. */
  ghost predicate SamePoints(t: Table, c: Table, id: SeriesKey) {
    id in t.series && id in c.series && c.series[id].points == t.series[id].points
  }

  function FoldSeries(s: Series, updates: seq<Update>): Series
    decreases |updates|
  {
    if updates == [] then s else FoldSeries(FoldUpdate(s, updates[0], MAX_POINTS), updates[1..])
  }

  /** A batch about one series touches that series only. */
  lemma {:induction false} ApplySameSeries(c: Table, id: SeriesKey, updates: seq<Update>)
    requires id in c.series && forall u <- updates :: u.id == id
    ensures FoldUpdates(c, updates, MAX_POINTS, MAX_SERIES)
         == c.(series := c.series[id := FoldSeries(c.series[id], updates)])
    decreases |updates|
  {
    if updates == [] {
      assert c.series[id := c.series[id]] == c.series;
    } else {
      var c1 := ApplyUpdate(c, updates[0], MAX_POINTS, MAX_SERIES);
      ApplySameSeries(c1, id, updates[1..]);
      var r := FoldSeries(c.series[id], updates);
      assert c1.series[id := r] == c.series[id := r];
    }
  }

  lemma ApplyBatch(c: Table, id: SeriesKey, updates: seq<Update>)
    requires updates != [] && forall u <- updates :: u.id == id
    requires id in c.series || |c.series| < MAX_SERIES
    ensures FoldUpdates(c, updates, MAX_POINTS, MAX_SERIES)
         == c.(series := c.series[id := FoldSeries(if id in c.series then c.series[id] else NewClientSeries(updates[0]), updates)])
  {
    if id in c.series {
      ApplySameSeries(c, id, updates);
    } else {
      var c1 := ApplyUpdate(c, updates[0], MAX_POINTS, MAX_SERIES);
      ApplySameSeries(c1, id, updates[1..]);
      var r := FoldSeries(NewClientSeries(updates[0]), updates);
      assert c1.series[id := r] == c.series[id := r];
    }
  }

  function UpdatePoints(us: seq<Update>): (r: seq<Point>)
    ensures |r| == |us|
  {
    seq(|us|, i requires 0 <= i < |us| => us[i].point)
  }

  /** A fold keeps the newest sixty of the old points and the pushed ones. */
  lemma {:induction false} FoldRing(c: Series, us: seq<Update>)
    requires |c.points| <= MAX_POINTS
    ensures FoldSeries(c, us).points == Newest(c.points + UpdatePoints(us), MAX_POINTS)
    decreases |us|
  {
    if us == [] {
      assert c.points + UpdatePoints(us) == c.points;
    } else {
      var c1 := FoldUpdate(c, us[0], MAX_POINTS);
      PushShiftIsNewest(c.points, us[0].point, MAX_POINTS);
      FoldRing(c1, us[1..]);
      assert c.points + UpdatePoints(us) == c.points + [us[0].point] + UpdatePoints(us[1..]);
      NewestNewest(c.points + [us[0].point], UpdatePoints(us[1..]), MAX_POINTS);
    }
  }

  /** The updates of one push carry the same header and labels, so the last one decides. */
  lemma {:induction false} FoldFields(c: Series, us: seq<Update>, u: Update)
    requires us != [] && u == us[|us| - 1]
    requires forall x <- us :: x.publishedTs == u.publishedTs && x.name == u.name && x.signalId == u.signalId
    ensures FoldSeries(c, us) == FoldUpdate(c, u, MAX_POINTS).(points := FoldSeries(c, us).points)
    decreases |us|
  {
    if |us| == 1 {
      assert us[1..] == [];
    } else {
      FoldFields(FoldUpdate(c, us[0], MAX_POINTS), us[1..], u);
    }
  }

  lemma SeriesMirrors(s: Series, c: Series, m: Message)
    requires m.samples != [] && |s.points| <= MAX_POINTS && IsSuffix(c.points, s.points)
    requires SameCarried(s, c) || (s == NewSeries(m.at) && c == NewSeries(m.at).(latest := m.samples[0].value))
    ensures var s', c' := SeriesAfter(s, m), FoldSeries(c, UpdatesFor(s, m));
            && SeriesMirror(s', c')
            && (c.points == s.points ==> c'.points == s'.points)
  {
    var us := UpdatesFor(s, m);
    assert UpdatePoints(us) == PointsOf(m.samples, m.at);
    FoldRing(c, us);
    FoldFields(c, us, us[|us| - 1]);
    SuffixPush(c.points, s.points, PointsOf(m.samples, m.at), MAX_POINTS);
  }

  lemma PutMirrors(t: Table, c: Table, id: SeriesKey, s: Series, sc: Series)
    requires Mirrors(t, c) && SeriesMirror(s, sc) && !Refused(t, id)
    ensures var t', c' := t.(series := t.series[id := s]), c.(series := c.series[id := sc]);
            && Mirrors(t', c')
            && (forall x :: x != id ==> (SamePoints(t', c', x) <==> SamePoints(t, c, x)))
            && (SamePoints(t', c', id) <==> s.points == sc.points)
  {
    hide SeriesMirror;
    var t', c' := t.(series := t.series[id := s]), c.(series := c.series[id := sc]);
    assert t'.series.Keys == t.series.Keys + {id} && c'.series.Keys == c.series.Keys + {id};
    assert |t.series| == |t.series.Keys| && |t'.series| == |t'.series.Keys|;
    if id in t.series { assert t.series.Keys + {id} == t.series.Keys; }
  }

  /** Simulation of one ingest: a mirroring client that folds the push mirrors again, drops
      nothing, and keeps every series whose points it holds in full, the new one included. */
  lemma IngestMirrors(t: Table, c: Table, m: Message)
    requires Mirrors(t, c)
    ensures var (t', us) := IngestSignal(t, m);
            var c' := FoldUpdates(c, us, MAX_POINTS, MAX_SERIES);
            && Mirrors(t', c') && c'.dropped == c.dropped
            && (forall id :: SamePoints(t, c, id) ==> SamePoints(t', c', id))
            && (us != [] && m.id !in t.series ==> SamePoints(t', c', m.id))
  {
    if m.samples != [] && !Refused(t, m.id) {
      var s := SeriesOr(t, m.id, m.at);
      var us := UpdatesFor(s, m);
      var base := if m.id in c.series then c.series[m.id] else NewClientSeries(us[0]);
      assert |t.series| == |t.series.Keys| && |c.series| == |c.series.Keys|;
      assert m.id in t.series ==> SeriesMirror(s, base);
      ApplyBatch(c, m.id, us);
      SeriesMirrors(s, base, m);
      hide SeriesMirror, SeriesAfter, UpdatesFor, FoldSeries, FoldUpdates;
      PutMirrors(t, c, m.id, SeriesAfter(s, m), FoldSeries(base, us));
    }
  }

  /** A snapshot mirrors; in full mode with every point. */
  lemma SnapshotMirrors(t: Table, full: bool)
    requires |t.series| <= MAX_SERIES && forall id <- t.series :: |t.series[id].points| <= MAX_POINTS
    ensures var c := Table(SnapshotOf(t, full), 0);
            Mirrors(t, c) && forall id <- t.series :: SamePoints(t, c, id) <==> full || t.series[id].points == []
  {
  }

  function BackfillOne(t: Table, c: Table, id: SeriesKey): Table
    requires id in t.series && id in c.series
  {
    c.(series := c.series[id := c.series[id].(points := Newest(t.series[id].points, MAX_POINTS))])
  }

  lemma BackfillOneMirrors(t: Table, c: Table, id: SeriesKey)
    requires Mirrors(t, c) && id in t.series
    ensures Mirrors(t, BackfillOne(t, c, id))
    ensures forall x :: SamePoints(t, BackfillOne(t, c, id), x) <==> x == id || SamePoints(t, c, x)
  {
    var s, sc := t.series[id], c.series[id].(points := t.series[id].points);
    assert SeriesMirror(s, c.series[id]) && SeriesMirror(s, sc);
    PutMirrors(t, c, id, s, sc);
    assert t.series[id := s] == t.series;
    hide SeriesMirror, Mirrors;
  }

  /** A backfill reply completes exactly the series it was asked for. */
  lemma {:induction false} BackfillCompletes(t: Table, c: Table, ids: seq<SeriesKey>)
    requires Mirrors(t, c)
    ensures var c' := FoldPoints(c, PointsFor(t, ids), MAX_POINTS);
            Mirrors(t, c') && forall id <- t.series :: SamePoints(t, c', id) <==> id in ids || SamePoints(t, c, id)
    decreases |ids|
  {
    if ids != [] {
      assert t.series.Keys == c.series.Keys;
      hide SeriesMirror, Mirrors, SamePoints, BackfillOne;
      assert forall id :: id in ids <==> id == ids[0] || id in ids[1..];
      if ids[0] in t.series {
        BackfillOneMirrors(t, c, ids[0]);
        BackfillCompletes(t, BackfillOne(t, c, ids[0]), ids[1..]);
        PointsForStep(t, c, ids);
      } else {
        BackfillCompletes(t, c, ids[1..]);
      }
    }
  }

  lemma PointsForStep(t: Table, c: Table, ids: seq<SeriesKey>)
    requires ids != [] && ids[0] in t.series && ids[0] in c.series
    ensures FoldPoints(c, PointsFor(t, ids), MAX_POINTS)
         == FoldPoints(BackfillOne(t, c, ids[0]), PointsFor(t, ids[1..]), MAX_POINTS)
  {
    var r := PointsReply(ids[0], t.series[ids[0]].points);
    assert ([r] + PointsFor(t, ids[1..]))[1..] == PointsFor(t, ids[1..]);
  }

  // ------------------------------------------------------------------ whole histories

  function Ingested(ms: seq<Message>): Table
    decreases |ms|
  {
    if ms == [] then Table(map[], 0) else IngestSignal(Ingested(ms[..|ms| - 1]), ms[|ms| - 1]).0
  }

  /** Every point ever sent for one series. */
  function History(ms: seq<Message>, id: SeriesKey): seq<Point>
    decreases |ms|
  {
    if ms == [] then []
    else
      var m := ms[|ms| - 1];
      History(ms[..|ms| - 1], id) + if m.id == id then PointsOf(m.samples, m.at) else []
  }

  /** Over every message history: a tracked series shows the newest sixty points of its whole
      history, and a series with points goes untracked only at the five-thousand-series cap. */
  lemma {:induction false} RingsAreNewest(ms: seq<Message>, id: SeriesKey)
    ensures var t := Ingested(ms);
            && |t.series| <= 5000
            && (id in t.series ==> History(ms, id) != [] && t.series[id].points == Newest(History(ms, id), 60))
            && (id !in t.series && History(ms, id) != [] ==> |t.series| == 5000)
    decreases |ms|
  {
    if ms != [] {
      var n := |ms| - 1;
      RingsAreNewest(ms[..n], id);
      var t, m := Ingested(ms[..n]), ms[n];
      if m.id == id && m.samples != [] && id in t.series {
        NewestNewest(History(ms[..n], id), PointsOf(m.samples, m.at), MAX_POINTS);
      }
    }
  }

  // ------------------------------------------------------------------ the fields of a series

  /** The messages with samples of one series. */
  function Of(ms: seq<Message>, id: SeriesKey): (r: seq<Message>)
    ensures forall m <- r :: m.id == id && m.samples != []
    decreases |ms|
  {
    if ms == [] then []
    else
      var m := ms[|ms| - 1];
      Of(ms[..|ms| - 1], id) + if m.id == id && m.samples != [] then [m] else []
  }

  /** The last reading of a history that was there. */
  function LastRead<T>(ms: seq<Message>, read: Message -> Option<T>): Option<T>
    decreases |ms|
  {
    if ms == [] then None
    else if read(ms[|ms| - 1]).Some? then read(ms[|ms| - 1])
    else LastRead(ms[..|ms| - 1], read)
  }

  function HeaderTs(m: Message): Option<string> { m.headerTs }
  function NameIn(m: Message): Option<string> { m.meta.name }
  function IdIn(m: Message): Option<string> { m.meta.signalId }
  function AddressIn(m: Message): Option<Json> { m.meta.address }
  function AdapterIn(m: Message): Option<string> { m.meta.adapter }
  function EndpointIn(m: Message): Option<string> { m.meta.endpoint }

  function LastRaw(m: Message): Option<string> {
    if m.samples == [] then None else m.samples[|m.samples| - 1].qualityRaw
  }

  /** Value, quality and times are those of the last sample sent, its display time the source's,
      else the server's, else the header's; labels and address are the last ones sent. */
  ghost predicate SeriesIs(s: Series, ms: seq<Message>) {
    && ms != [] && ms[|ms| - 1].samples != []
    && var m := ms[|ms| - 1];
       var last := m.samples[|m.samples| - 1];
       && s.latest == last.value && s.quality == last.quality && s.receivedAt == m.at
       && s.sourceTs == last.sourceTs && s.serverTs == last.serverTs
       && s.sourceTimestamp == (if last.sourceTs.Some? then last.sourceTs else if last.serverTs.Some? then last.serverTs else m.headerTs)
       && s.publishedTs == LastRead(ms, HeaderTs) && s.qualityRaw == LastRead(ms, LastRaw)
       && s.name == LastRead(ms, NameIn) && s.signalId == LastRead(ms, IdIn)
       && s.address == LastRead(ms, AddressIn) && s.adapter == LastRead(ms, AdapterIn)
       && s.endpoint == LastRead(ms, EndpointIn)
  }

  lemma LastReadSnoc<T>(ms: seq<Message>, m: Message, read: Message -> Option<T>)
    ensures LastRead(ms + [m], read) == read(m).OrElse(LastRead(ms, read))
  {
    assert (ms + [m])[..|ms|] == ms;
  }

  lemma SeriesStep(s: Series, ms: seq<Message>, m: Message)
    requires m.samples != [] && (if ms == [] then s == NewSeries(m.at) else SeriesIs(s, ms))
    ensures SeriesIs(SeriesAfter(s, m), ms + [m])
  {
    LastReadSnoc(ms, m, HeaderTs);
    LastReadSnoc(ms, m, LastRaw);
    LastReadSnoc(ms, m, NameIn);
    LastReadSnoc(ms, m, IdIn);
    LastReadSnoc(ms, m, AddressIn);
    LastReadSnoc(ms, m, AdapterIn);
    LastReadSnoc(ms, m, EndpointIn);
    if ms == [] {
      assert LastRead(ms, HeaderTs).None? && LastRead(ms, LastRaw).None? && LastRead(ms, NameIn).None? && LastRead(ms, IdIn).None?;
      assert LastRead(ms, AddressIn).None? && LastRead(ms, AdapterIn).None? && LastRead(ms, EndpointIn).None?;
    }
    hide LastRead, Newest, PointsOf;
  }

  /** Over every message history, every field of a tracked series is read off its messages. */
  lemma {:induction false} SeriesAreHistory(ms: seq<Message>, id: SeriesKey)
    ensures var t := Ingested(ms);
            && (id in t.series ==> SeriesIs(t.series[id], Of(ms, id)))
            && (id !in t.series && Of(ms, id) != [] ==> |t.series| >= MAX_SERIES)
    decreases |ms|
  {
    if ms != [] {
      var n := |ms| - 1;
      var t, m := Ingested(ms[..n]), ms[n];
      SeriesAreHistory(ms[..n], id);
      assert Of(ms[..n], id) + [] == Of(ms[..n], id);
      hide SeriesIs, SeriesAfter;
      if m.id == id && m.samples != [] && !Refused(t, id) {
        SeriesStep(SeriesOr(t, id, m.at), Of(ms[..n], id), m);
      }
      hide Of;
      IngestGrows(t, m);
    }
  }

  lemma IngestGrows(t: Table, m: Message)
    ensures |IngestSignal(t, m).0.series| >= |t.series|
  {
    var t' := IngestSignal(t, m).0;
    hide SeriesAfter;
    assert t.series.Keys <= t'.series.Keys;
    assert t'.series.Keys == t.series.Keys + (t'.series.Keys - t.series.Keys);
    assert |t.series| == |t.series.Keys| && |t'.series| == |t'.series.Keys|;
  }
}

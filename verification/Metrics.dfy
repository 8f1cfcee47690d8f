/**
 The metric plane: the gateway's metric table with its configured bounds
 (gateway/src/model.rs `ingest_metrics`) and the browser store with its own fixed ones
 (ui/src/fleet/metric-store.ts).
 */
module Metrics {
  import opened Basics
  import Fleet

  const CLIENT_POINTS: nat := 60
  const CLIENT_SERIES: nat := 5000

  datatype SeriesKey = SeriesKey(key: Fleet.Key, instance: string, metric: string, measure: string)

  datatype Point = Point(at: nat, value: real)

  datatype Series = Series(latest: real, receivedAt: nat, sourceTimestamp: Option<string>, points: seq<Point>)

  datatype Table = Table(series: map<SeriesKey, Series>, dropped: nat)

  /** A `metric` message: the finite measures of its body, in body order. */
  datatype Message = Message(key: Fleet.Key, instance: string, metric: string, measures: seq<(string, real)>, headerTs: Option<string>, at: nat)

  /** One entry of a `metric` push. */
  datatype Update = Update(id: SeriesKey, point: Point, sourceTimestamp: Option<string>)

  datatype Bounds = Bounds(maxPoints: nat, maxSeries: nat)

  function UpdateFor(m: Message, measure: (string, real)): Update {
    Update(SeriesKey(m.key, m.instance, m.metric, measure.0), Point(m.at, measure.1), m.headerTs)
  }

  /** Everything a message would push if no series were refused. */
  function Offered(m: Message): (r: seq<Update>)
    ensures |r| == |m.measures|
    ensures forall i | 0 <= i < |r| ::
              r[i] == Update(SeriesKey(m.key, m.instance, m.metric, m.measures[i].0), Point(m.at, m.measures[i].1), m.headerTs)
  {
    seq(|m.measures|, i requires 0 <= i < |m.measures| => UpdateFor(m, m.measures[i]))
  }

  // ------------------------------------------------------------------ the gateway

  predicate Refused(t: Table, id: SeriesKey, maxSeries: nat) {
    id !in t.series && |t.series| >= maxSeries
  }

  function PointsOr(t: Table, id: SeriesKey): seq<Point> {
    if id in t.series then t.series[id].points else []
  }

  function Record(t: Table, u: Update, maxPoints: nat): Table {
    t.(series := t.series[u.id := Series(u.point.value, u.point.at, u.sourceTimestamp,
                                         Newest(PointsOr(t, u.id) + [u.point], maxPoints))])
  }

  /** The table after some measures, and the updates that were not refused. */
  function Ingest(t: Table, us: seq<Update>, b: Bounds): (Table, seq<Update>)
    decreases |us|
  {
    if us == [] then (t, [])
    else if Refused(t, us[0].id, b.maxSeries) then Ingest(t.(dropped := t.dropped + 1), us[1..], b)
    else var (t', rest) := Ingest(Record(t, us[0], b.maxPoints), us[1..], b); (t', [us[0]] + rest)
  }

  function IngestMetrics(t: Table, m: Message, b: Bounds): (Table, seq<Update>) {
    Ingest(t, Offered(m), b)
  }

  // ------------------------------------------------------------------ the browser

  function ApplyUpdate(c: Table, u: Update, b: Bounds): Table {
    if Refused(c, u.id, b.maxSeries) then c.(dropped := c.dropped + 1)
    else c.(series := c.series[u.id := Series(u.point.value, u.point.at, u.sourceTimestamp,
                                              PushShift(PointsOr(c, u.id), u.point, b.maxPoints))])
  }

  function FoldUpdates(c: Table, us: seq<Update>, b: Bounds): Table
    decreases |us|
  {
    if us == [] then c else FoldUpdates(ApplyUpdate(c, us[0], b), us[1..], b)
  }

  class MetricStore {
    const maxSeriesPoints: nat
    const maxSeries: nat
    var series: map<SeriesKey, Series>
    var dropped: nat

    ghost function Value(): Table
      reads this
    {
      Table(series, dropped)
    }

    constructor (maxSeriesPoints: nat, maxSeries: nat)
      ensures Value() == Table(map[], 0)
      ensures this.maxSeriesPoints == maxSeriesPoints && this.maxSeries == maxSeries
    {
      this.maxSeriesPoints, this.maxSeries := maxSeriesPoints, maxSeries;
      series, dropped := map[], 0;
    }

    method ApplySnapshot(snapshot: map<SeriesKey, Series>)
      modifies this
      ensures Value() == Table(snapshot, 0)
    {
      series, dropped := snapshot, 0;
    }

    method ApplyUpdates(updates: seq<Update>)
      modifies this
      ensures Value() == FoldUpdates(old(Value()), updates, Bounds(maxSeriesPoints, maxSeries))
    {
      ghost var b := Bounds(maxSeriesPoints, maxSeries);
      for i := 0 to |updates|
        invariant FoldUpdates(old(Value()), updates, b) == FoldUpdates(Value(), updates[i..], b)
      {
        var u := updates[i];
        assert updates[i..][0] == u && updates[i..][1..] == updates[i + 1..];
        var points := [];
        if u.id in series {
          points := series[u.id].points;
        } else if |series| >= maxSeries {
          dropped := dropped + 1;
          continue;
        }
        points := points + [u.point];
        if |points| > maxSeriesPoints { points := points[1..]; }
        series := series[u.id := Series(u.point.value, u.point.at, u.sourceTimestamp, points)];
      }
    }
  }

  // ------------------------------------------------------------------ one history, two bounds

  /** The points offered for one series: those of the client's snapshot, then everything since. */
  function History(start: Table, us: seq<Update>, id: SeriesKey): (r: seq<Point>)
    ensures |r| >= |PointsOr(start, id)|
    decreases |us|
  {
    if us == [] then PointsOr(start, id)
    else
      var u := us[|us| - 1];
      History(start, us[..|us| - 1], id) + if u.id == id then [u.point] else []
  }

  /** The client never trims a series below the length its snapshot had. */
  function ClientBound(start: Table, id: SeriesKey): nat {
    Max(60, |PointsOr(start, id)|)
  }

  ghost predicate SeriesAgree(s: Series, c: Series, history: seq<Point>, maxPoints: nat, bound: nat) {
    && s.latest == c.latest && s.receivedAt == c.receivedAt && s.sourceTimestamp == c.sourceTimestamp
    && s.points == Newest(history, maxPoints) && c.points == Newest(history, bound)
  }

  /** Which series either side tracks. */
  ghost predicate KeysAgree(start: set<SeriesKey>, t: set<SeriesKey>, c: set<SeriesKey>, dropped: nat, b: Bounds) {
    && start <= c <= t
    && (dropped == 0 <==> c == t)
    && (c != t ==> |c| >= CLIENT_SERIES)
    && (b.maxSeries <= CLIENT_SERIES ==> dropped == 0)
  }

  /** A series the gateway does not track has no history, unless the table is full. */
  ghost predicate UntrackedIsNew(start: Table, us: seq<Update>, t: Table, b: Bounds) {
    |t.series| >= b.maxSeries || forall id :: id !in t.series ==> History(start, us, id) == []
  }

  ghost predicate Agree(start: Table, us: seq<Update>, t: Table, c: Table, b: Bounds) {
    && KeysAgree(start.series.Keys, t.series.Keys, c.series.Keys, c.dropped, b)
    && UntrackedIsNew(start, us, t, b)
    && (forall id <- c.series ::
          SeriesAgree(t.series[id], c.series[id], History(start, us, id), b.maxPoints, ClientBound(start, id)))
  }

  lemma SnapshotAgrees(t: Table, b: Bounds)
    requires forall id <- t.series :: |t.series[id].points| <= b.maxPoints
    ensures Agree(t, [], t, Table(t.series, 0), b)
  {
  }

  /** Pushing one point keeps both rings the newest of the longer history. */
  lemma RingsAgree(s: seq<Point>, c: seq<Point>, history: seq<Point>, x: Point, start: seq<Point>, maxPoints: nat)
    requires s == Newest(history, maxPoints) && c == Newest(history, Max(CLIENT_POINTS, |start|)) && |history| >= |start|
    ensures Newest(s + [x], maxPoints) == Newest(history + [x], maxPoints)
    ensures PushShift(c, x, CLIENT_POINTS) == Newest(history + [x], Max(CLIENT_POINTS, |start|))
  {
    var bound := Max(CLIENT_POINTS, |start|);
    NewestPush(history, x, maxPoints);
    NewestPush(history, x, bound);
    PushShiftIsNewest(c, x, CLIENT_POINTS);
    if |c| < CLIENT_POINTS { assert c == history; }
  }

  lemma HistorySnoc(start: Table, us: seq<Update>, u: Update, id: SeriesKey)
    ensures History(start, us + [u], id) == History(start, us, id) + if u.id == id then [u.point] else []
  {
    assert (us + [u])[..|us|] == us;
  }

  const CLIENT := Bounds(CLIENT_POINTS, CLIENT_SERIES)

  /** One offered update: refused by the gateway, or recorded there and pushed to the client. */
  function StepServer(t: Table, u: Update, b: Bounds): Table {
    if Refused(t, u.id, b.maxSeries) then t.(dropped := t.dropped + 1) else Record(t, u, b.maxPoints)
  }

  function StepClient(t: Table, c: Table, u: Update, b: Bounds): Table {
    if Refused(t, u.id, b.maxSeries) then c else ApplyUpdate(c, u, CLIENT)
  }

  lemma CardinalKeys(t: Table)
    ensures |t.series| == |t.series.Keys|
  {
  }

  lemma AddKey(t: Table, id: SeriesKey, s: Series)
    ensures t.series[id := s].Keys == t.series.Keys + {id}
    ensures id in t.series ==> t.series[id := s].Keys == t.series.Keys
    ensures |t.series[id := s]| >= |t.series|
  {
    assert |t.series| == |t.series.Keys| && |t.series[id := s]| == |t.series[id := s].Keys|;
    assert t.series[id := s].Keys == t.series.Keys + {id};
    if id in t.series { assert t.series.Keys + {id} == t.series.Keys; }
  }

  lemma StepKeysAgree(start: Table, t: Table, c: Table, u: Update, b: Bounds)
    requires KeysAgree(start.series.Keys, t.series.Keys, c.series.Keys, c.dropped, b)
    ensures var t', c' := StepServer(t, u, b), StepClient(t, c, u, b);
            KeysAgree(start.series.Keys, t'.series.Keys, c'.series.Keys, c'.dropped, b)
  {
    CardinalKeys(t);
    CardinalKeys(c);
    hide Newest, PushShift, PointsOr;
    if !Refused(t, u.id, b.maxSeries) {
      AddKey(t, u.id, StepServer(t, u, b).series[u.id]);
      if !Refused(c, u.id, CLIENT_SERIES) {
        AddKey(c, u.id, StepClient(t, c, u, b).series[u.id]);
      }
    }
  }

  lemma StepUntracked(start: Table, us: seq<Update>, t: Table, u: Update, b: Bounds)
    requires UntrackedIsNew(start, us, t, b)
    ensures UntrackedIsNew(start, us + [u], StepServer(t, u, b), b)
  {
    hide Newest, PointsOr;
    if !Refused(t, u.id, b.maxSeries) {
      AddKey(t, u.id, StepServer(t, u, b).series[u.id]);
    }
    if |t.series| < b.maxSeries {
      forall id | id !in StepServer(t, u, b).series ensures History(start, us + [u], id) == [] {
        HistorySnoc(start, us, u, id);
      }
    }
  }

  /** A series new to the client is new to both sides. */
  lemma NewSeriesIsNew(start: Table, us: seq<Update>, t: Table, c: Table, u: Update, b: Bounds)
    requires Agree(start, us, t, c, b)
    requires !Refused(t, u.id, b.maxSeries) && u.id !in c.series && !Refused(c, u.id, CLIENT_SERIES)
    ensures u.id !in t.series && u.id !in start.series && History(start, us, u.id) == []
  {
    CardinalKeys(c);
    CardinalKeys(t);
  }

  lemma StepSeriesAgree(start: Table, us: seq<Update>, t: Table, c: Table, u: Update, b: Bounds, id: SeriesKey)
    requires Agree(start, us, t, c, b)
    requires id in StepClient(t, c, u, b).series
    ensures id in StepServer(t, u, b).series
    ensures SeriesAgree(StepServer(t, u, b).series[id], StepClient(t, c, u, b).series[id],
                        History(start, us + [u], id), b.maxPoints, ClientBound(start, id))
  {
    HistorySnoc(start, us, u, id);
    var h := History(start, us, id);
    assert h + [] == h;
    assert id in c.series ==> id in t.series && SeriesAgree(t.series[id], c.series[id], h, b.maxPoints, ClientBound(start, id));
    var touched := u.id == id && !Refused(t, id, b.maxSeries);
    if touched && id !in c.series {
      NewSeriesIsNew(start, us, t, c, u, b);
      assert Newest(h, b.maxPoints) == [] && Newest(h, ClientBound(start, id)) == [];
    }
    hide Agree, History, Newest, PushShift;
    if touched {
      assert PointsOr(t, id) == Newest(h, b.maxPoints) && PointsOr(c, id) == Newest(h, ClientBound(start, id));
      RingsAgree(PointsOr(t, id), PointsOr(c, id), h, u.point, PointsOr(start, id), b.maxPoints);
    }
  }

  lemma StepAgree(start: Table, us: seq<Update>, t: Table, c: Table, u: Update, b: Bounds)
    requires Agree(start, us, t, c, b)
    ensures Agree(start, us + [u], StepServer(t, u, b), StepClient(t, c, u, b), b)
  {
    StepKeysAgree(start, t, c, u, b);
    StepUntracked(start, us, t, u, b);
    forall id | id in StepClient(t, c, u, b).series
      ensures id in StepServer(t, u, b).series
      ensures SeriesAgree(StepServer(t, u, b).series[id], StepClient(t, c, u, b).series[id],
                          History(start, us + [u], id), b.maxPoints, ClientBound(start, id))
    {
      StepSeriesAgree(start, us, t, c, u, b, id);
    }
    hide SeriesAgree, StepServer, StepClient, History, KeysAgree, UntrackedIsNew;
  }

  /** Simulation of one message. */
  lemma {:induction false} IngestAgree(start: Table, us: seq<Update>, t: Table, c: Table, more: seq<Update>, b: Bounds)
    requires Agree(start, us, t, c, b)
    ensures var (t', pushed) := Ingest(t, more, b);
            Agree(start, us + more, t', FoldUpdates(c, pushed, CLIENT), b)
    decreases |more|
  {
    hide Agree;
    if more == [] {
      assert us + more == us;
    } else {
      var u := more[0];
      StepAgree(start, us, t, c, u, b);
      IngestAgree(start, us + [u], StepServer(t, u, b), StepClient(t, c, u, b), more[1..], b);
      assert us + more == us + [u] + more[1..];
      var rest := Ingest(StepServer(t, u, b), more[1..], b).1;
      assert ([u] + rest)[1..] == rest;
    }
  }

  // ------------------------------------------------------------------ all runs

  /** Both sides after some messages, the client having started from a snapshot of `start`. */
  function Run(start: Table, ms: seq<Message>, b: Bounds): (Table, Table)
    decreases |ms|
  {
    if ms == [] then (start, Table(start.series, 0))
    else
      var (t, c) := Run(start, ms[..|ms| - 1], b);
      var (t', pushed) := IngestMetrics(t, ms[|ms| - 1], b);
      (t', FoldUpdates(c, pushed, CLIENT))
  }

  function OfferedAll(ms: seq<Message>): seq<Update>
    decreases |ms|
  {
    if ms == [] then [] else OfferedAll(ms[..|ms| - 1]) + Offered(ms[|ms| - 1])
  }

  lemma {:induction false} RunAgrees(start: Table, ms: seq<Message>, b: Bounds)
    requires forall id <- start.series :: |start.series[id].points| <= b.maxPoints
    ensures var (t, c) := Run(start, ms, b); Agree(start, OfferedAll(ms), t, c, b)
    decreases |ms|
  {
    if ms == [] {
      SnapshotAgrees(start, b);
    } else {
      hide Agree;
      var (t, c) := Run(start, ms[..|ms| - 1], b);
      RunAgrees(start, ms[..|ms| - 1], b);
      IngestAgree(start, OfferedAll(ms[..|ms| - 1]), t, c, Offered(ms[|ms| - 1]), b);
    }
  }

  lemma SameNewest(h: seq<Point>, a: nat, b: nat)
    ensures Newest(h, a) == Newest(h, b) <==> Min(|h|, a) == Min(|h|, b)
  {
  }

  /** Over every run, for the series a client tracks: the current value and timestamps are the
      gateway's, and the rings are the newest points of one history under the two bounds, so
      they are equal exactly when the bounds cut that history alike.  The client tracks what
      the gateway does exactly when it dropped nothing, which a gateway bound of at most five
      thousand series guarantees. */
  lemma MetricsMirror(start: Table, ms: seq<Message>, b: Bounds, id: SeriesKey)
    requires forall i <- start.series :: |start.series[i].points| <= b.maxPoints
    ensures var (t, c) := Run(start, ms, b);
            var h := History(start, OfferedAll(ms), id);
            && (c.dropped == 0 <==> c.series.Keys == t.series.Keys)
            && (b.maxSeries <= 5000 ==> c.dropped == 0)
            && (id in c.series ==>
                  && id in t.series
                  && c.series[id].(points := []) == t.series[id].(points := [])
                  && t.series[id].points == Newest(h, b.maxPoints) && c.series[id].points == Newest(h, ClientBound(start, id))
                  && (c.series[id].points == t.series[id].points
                      <==> Min(|h|, b.maxPoints) == Min(|h|, ClientBound(start, id))))
  {
    RunAgrees(start, ms, b);
    SameNewest(History(start, OfferedAll(ms), id), b.maxPoints, ClientBound(start, id));
    hide Run, History, Newest;
  }

  /** The last update offered for a series. */
  function LastOffered(us: seq<Update>, id: SeriesKey): Option<Update>
    decreases |us|
  {
    if us == [] then None
    else if us[|us| - 1].id == id then Some(us[|us| - 1])
    else LastOffered(us[..|us| - 1], id)
  }

  /** A tracked series shows the last value offered for it, with its times, or what it started with. */
  ghost predicate ShowsLast(start: Table, t: Table, us: seq<Update>, id: SeriesKey) {
    id in t.series ==>
      match LastOffered(us, id)
      case Some(u) => t.series[id].(points := []) == Series(u.point.value, u.point.at, u.sourceTimestamp, [])
      case None => id in start.series && t.series[id].(points := []) == start.series[id].(points := [])
  }

  lemma {:induction false} IngestShowsLast(start: Table, t: Table, us: seq<Update>, more: seq<Update>, b: Bounds, id: SeriesKey)
    requires ShowsLast(start, t, us, id)
    ensures ShowsLast(start, Ingest(t, more, b).0, us + more, id)
    decreases |more|
  {
    if more == [] {
      assert us + more == us;
    } else {
      var u := more[0];
      assert (us + [u])[..|us|] == us;
      IngestShowsLast(start, StepServer(t, u, b), us + [u], more[1..], b, id);
      assert us + more == us + [u] + more[1..];
    }
  }

  /** Over every run the gateway's current values are the last ones offered. */
  lemma {:induction false} LatestIsLast(start: Table, ms: seq<Message>, b: Bounds, id: SeriesKey)
    ensures ShowsLast(start, Run(start, ms, b).0, OfferedAll(ms), id)
    decreases |ms|
  {
    if ms != [] {
      var n := |ms| - 1;
      LatestIsLast(start, ms[..n], b, id);
      hide ShowsLast;
      IngestShowsLast(start, Run(start, ms[..n], b).0, OfferedAll(ms[..n]), Offered(ms[n]), b, id);
    }
  }
}

/**
 * What processMetricsForTimeline (TimelineCharts.tsx) promises about its four
 * series, stated against the flattened samples of the input:
 *  - every series is strictly increasing in time;
 *  - a chart has a point at time t exactly when some entry of its kind has time t;
 *  - null-filled points carry every processor ever seen for the chart, with the
 *    bucket's reading or `None` (null), never 0;
 *  - the readings are the last value (ttfb, processing) or the running sum up to
 *    the last entry (characters, tokens) at that time;
 *  - with time-ordered input and non-negative values, characters and each of the
 *    three token counts never decrease.
 */
module TimelineProps {
  import opened MetricTypes
  import opened TimelineMap
  import opened TimelineBuckets
  import opened TimelineSeries
  import opened SeqFacts

  // ---------------------------------------------------------------------
  // Emitted points, for any list of buckets
  // ---------------------------------------------------------------------

  predicate TimesIncrease(bs: seq<Bucket>)
  {
    forall i, j :: 0 <= i < j < |bs| ==> bs[i].time < bs[j].time
  }

  /** Every point of chart `c` is the filled point of a bucket with a reading for `c`. */
  lemma {:induction false} ChartPointsFrom(bs: seq<Bucket>, c: Chart, procs: set<string>)
    ensures forall k :: 0 <= k < |ChartPoints(bs, c, procs)| ==>
        exists i :: 0 <= i < |bs| && |Readings(bs[i], c)| > 0 && ChartPoints(bs, c, procs)[k] == FilledPoint(bs[i], c, procs)
  {
    if bs != [] {
      var n := |bs| - 1;
      ChartPointsFrom(bs[..n], c, procs);
      var pre := ChartPoints(bs[..n], c, procs);
      var pts := ChartPoints(bs, c, procs);
      forall k | 0 <= k < |pts|
        ensures exists i :: 0 <= i < |bs| && |Readings(bs[i], c)| > 0 && pts[k] == FilledPoint(bs[i], c, procs)
      {
        if k < |pre| {
          var i :| 0 <= i < n && |Readings(bs[..n][i], c)| > 0 && pre[k] == FilledPoint(bs[..n][i], c, procs);
          assert bs[i] == bs[..n][i];
        } else {
          assert pts[k] == FilledPoint(bs[n], c, procs);
        }
      }
    } else {
      assert ChartPoints(bs, c, procs) == [];
    }
  }

  /** The points of a prefix of the buckets are a prefix of the points. */
  lemma {:induction false} ChartPointsPrefix(bs: seq<Bucket>, j: nat, c: Chart, procs: set<string>)
    requires j <= |bs|
    ensures |ChartPoints(bs[..j], c, procs)| <= |ChartPoints(bs, c, procs)|
    ensures ChartPoints(bs[..j], c, procs) == ChartPoints(bs, c, procs)[..|ChartPoints(bs[..j], c, procs)|]
  {
    if j < |bs| {
      var n := |bs| - 1;
      ChartPointsPrefix(bs[..n], j, c, procs);
      assert bs[..n][..j] == bs[..j];
    } else {
      assert bs[..j] == bs;
    }
  }

  /** Every bucket with a reading for `c` gives a point of chart `c`: the one after the
      points of the buckets before it. */
  lemma ChartPointsCover(bs: seq<Bucket>, c: Chart, procs: set<string>)
    ensures forall i :: 0 <= i < |bs| && |Readings(bs[i], c)| > 0 ==>
        FilledPoint(bs[i], c, procs) in ChartPoints(bs, c, procs)
  {
    forall i | 0 <= i < |bs| && |Readings(bs[i], c)| > 0
      ensures FilledPoint(bs[i], c, procs) in ChartPoints(bs, c, procs)
    {
      ChartPointsSnoc(bs, i, c, procs);
      ChartPointsPrefix(bs, i + 1, c, procs);
      var k := |ChartPoints(bs[..i], c, procs)|;
      assert ChartPoints(bs, c, procs)[k] == ChartPoints(bs[..i + 1], c, procs)[k];
    }
  }

  /** Buckets in increasing time give points in increasing time. */
  lemma {:induction false} ChartPointsIncrease(bs: seq<Bucket>, c: Chart, procs: set<string>)
    requires TimesIncrease(bs)
    ensures forall k, l :: 0 <= k < l < |ChartPoints(bs, c, procs)| ==> ChartPoints(bs, c, procs)[k].time < ChartPoints(bs, c, procs)[l].time
  {
    if bs != [] {
      var n := |bs| - 1;
      assert TimesIncrease(bs[..n]);
      ChartPointsIncrease(bs[..n], c, procs);
      ChartPointsFrom(bs[..n], c, procs);
      var pre := ChartPoints(bs[..n], c, procs);
      forall k | 0 <= k < |pre| ensures pre[k].time < bs[n].time {
        var i :| 0 <= i < n && |Readings(bs[..n][i], c)| > 0 && pre[k] == FilledPoint(bs[..n][i], c, procs);
        assert bs[..n][i] == bs[i];
      }
    }
  }

  lemma {:induction false} TokenPointsFrom(bs: seq<Bucket>, procs: set<string>)
    ensures forall k :: 0 <= k < |TokenPoints(bs, procs)| ==>
        exists i :: 0 <= i < |bs| && |bs[i].tokens| > 0 && TokenPoints(bs, procs)[k] == SparsePoint(bs[i], procs)
  {
    if bs != [] {
      var n := |bs| - 1;
      TokenPointsFrom(bs[..n], procs);
      var pre := TokenPoints(bs[..n], procs);
      var pts := TokenPoints(bs, procs);
      forall k | 0 <= k < |pts|
        ensures exists i :: 0 <= i < |bs| && |bs[i].tokens| > 0 && pts[k] == SparsePoint(bs[i], procs)
      {
        if k < |pre| {
          var i :| 0 <= i < n && |bs[..n][i].tokens| > 0 && pre[k] == SparsePoint(bs[..n][i], procs);
          assert bs[i] == bs[..n][i];
        } else {
          assert pts[k] == SparsePoint(bs[n], procs);
        }
      }
    } else {
      assert TokenPoints(bs, procs) == [];
    }
  }

  lemma {:induction false} TokenPointsPrefix(bs: seq<Bucket>, j: nat, procs: set<string>)
    requires j <= |bs|
    ensures |TokenPoints(bs[..j], procs)| <= |TokenPoints(bs, procs)|
    ensures TokenPoints(bs[..j], procs) == TokenPoints(bs, procs)[..|TokenPoints(bs[..j], procs)|]
  {
    if j < |bs| {
      var n := |bs| - 1;
      TokenPointsPrefix(bs[..n], j, procs);
      assert bs[..n][..j] == bs[..j];
    } else {
      assert bs[..j] == bs;
    }
  }

  lemma TokenPointsCover(bs: seq<Bucket>, procs: set<string>)
    ensures forall i :: 0 <= i < |bs| && |bs[i].tokens| > 0 ==>
        SparsePoint(bs[i], procs) in TokenPoints(bs, procs)
  {
    forall i | 0 <= i < |bs| && |bs[i].tokens| > 0
      ensures SparsePoint(bs[i], procs) in TokenPoints(bs, procs)
    {
      TokenPointsSnoc(bs, i, procs);
      TokenPointsPrefix(bs, i + 1, procs);
      var k := |TokenPoints(bs[..i], procs)|;
      assert TokenPoints(bs, procs)[k] == TokenPoints(bs[..i + 1], procs)[k];
    }
  }

  lemma {:induction false} TokenPointsIncrease(bs: seq<Bucket>, procs: set<string>)
    requires TimesIncrease(bs)
    ensures forall k, l :: 0 <= k < l < |TokenPoints(bs, procs)| ==> TokenPoints(bs, procs)[k].time < TokenPoints(bs, procs)[l].time
  {
    if bs != [] {
      var n := |bs| - 1;
      assert TimesIncrease(bs[..n]);
      TokenPointsIncrease(bs[..n], procs);
      TokenPointsFrom(bs[..n], procs);
      var pre := TokenPoints(bs[..n], procs);
      forall k | 0 <= k < |pre| ensures pre[k].time < bs[n].time {
        var i :| 0 <= i < n && |bs[..n][i].tokens| > 0 && pre[k] == SparsePoint(bs[..n][i], procs);
        assert bs[..n][i] == bs[i];
      }
    }
  }

  // ---------------------------------------------------------------------
  // The sorted buckets
  // ---------------------------------------------------------------------

  /** Every bucket is filed under its own time. */
  ghost predicate KeyedByTime(m: map<int, Bucket>)
  {
    forall t | t in m :: m[t].time == t
  }

  /** `sortedEntries` lists every bucket once, in increasing time. */
  lemma OrderedBuckets(m: map<int, Bucket>)
    requires KeyedByTime(m)
    ensures var bs := Ordered(m);
      && TimesIncrease(bs)
      && (forall i :: 0 <= i < |bs| ==> bs[i].time in m && bs[i] == m[bs[i].time])
      && (forall t | t in m :: exists i :: 0 <= i < |bs| && bs[i].time == t)
  {
    var ts := SortedTimes(m.Keys);
    var bs := Ordered(m);
    assert forall i :: 0 <= i < |bs| ==> bs[i] == m[ts[i]] && bs[i].time == ts[i];
    forall t | t in m ensures exists i :: 0 <= i < |bs| && bs[i].time == t {
      SortedTimesComplete(m.Keys, t);
      var i :| 0 <= i < |ts| && ts[i] == t;
      assert bs[i].time == t;
    }
  }

  // ---------------------------------------------------------------------
  // When a reading exists
  // ---------------------------------------------------------------------

  /** Some sample is a reading of `kind` for `p` at time `t`. */
  ghost predicate HitSome(ss: seq<Sample>, t: int, kind: MetricKind, p: string)
  {
    exists j :: 0 <= j < |ss| && Hit(ss[j], t, kind, p)
  }

  lemma {:induction false} LastReadingSome(ss: seq<Sample>, t: int, kind: MetricKind, p: string)
    ensures LastReading(ss, t, kind, p).Some? <==> HitSome(ss, t, kind, p)
  {
    if ss != [] {
      var n := |ss| - 1;
      LastReadingSome(ss[..n], t, kind, p);
      HitSomeSnoc(ss, t, kind, p);
    }
  }

  lemma {:induction false} CharsAtSome(ss: seq<Sample>, t: int, p: string)
    ensures CharsAt(ss, t, p).Some? <==> HitSome(ss, t, CharactersKind, p)
  {
    if ss != [] {
      var n := |ss| - 1;
      CharsAtSome(ss[..n], t, p);
      HitSomeSnoc(ss, t, CharactersKind, p);
    }
  }

  lemma {:induction false} TokensAtSome(ss: seq<Sample>, t: int, p: string)
    ensures TokensAt(ss, t, p).Some? <==> HitSome(ss, t, TokensKind, p)
  {
    if ss != [] {
      var n := |ss| - 1;
      TokensAtSome(ss[..n], t, p);
      HitSomeSnoc(ss, t, TokensKind, p);
    }
  }

  lemma HitSomeSnoc(ss: seq<Sample>, t: int, kind: MetricKind, p: string)
    requires ss != []
    ensures HitSome(ss, t, kind, p) <==> HitSome(ss[..|ss| - 1], t, kind, p) || Hit(ss[|ss| - 1], t, kind, p)
  {
    var n := |ss| - 1;
    var pre := ss[..n];
    assert forall j :: 0 <= j < n ==> pre[j] == ss[j];
  }

  // ---------------------------------------------------------------------
  // The buckets of the first pass, against the samples
  // ---------------------------------------------------------------------

  function ChartKind(c: Chart): MetricKind
  {
    match c
    case Ttfb => TtfbKind
    case Processing => ProcessingKind
    case Characters => CharactersKind
  }

  /** The series of chart `c`. */
  function Series(tl: Timeline, c: Chart): seq<Point>
  {
    match c
    case Ttfb => tl.ttfb
    case Processing => tl.processing
    case Characters => tl.characters
  }

  /** What chart `c` shows for `p` at time `t`: the last value (ttfb, processing) or the
      running sum after the last entry (characters) at `t`. */
  function Reading(ss: seq<Sample>, t: int, c: Chart, p: string): Option<int>
  {
    match c
    case Ttfb => LastReading(ss, t, TtfbKind, p)
    case Processing => LastReading(ss, t, ProcessingKind, p)
    case Characters => CharsAt(ss, t, p)
  }

  lemma ReadingSome(ss: seq<Sample>, t: int, c: Chart, p: string)
    ensures Reading(ss, t, c, p).Some? <==> HitSome(ss, t, ChartKind(c), p)
  {
    match c
    case Ttfb => LastReadingSome(ss, t, TtfbKind, p);
    case Processing => LastReadingSome(ss, t, ProcessingKind, p);
    case Characters => CharsAtSome(ss, t, p);
  }

  lemma BucketReading(evs: seq<MetricsEvent>, t: int, c: Chart, p: string)
    requires t in FirstPass(evs).buckets
    ensures Get(Readings(FirstPass(evs).buckets[t], c), p) == Reading(Samples(evs), t, c, p)
  {
    InstantBucket(evs, t, p);
    CumulativeBucket(evs, t, p);
  }

  lemma FirstPassKeyed(evs: seq<MetricsEvent>)
    ensures KeyedByTime(FirstPass(evs).buckets)
  {
    forall t | t in FirstPass(evs).buckets ensures FirstPass(evs).buckets[t].time == t {
      BucketPerTime(evs, t);
    }
  }

  /** Every sample's time has a bucket. */
  lemma SampleHasBucket(evs: seq<MetricsEvent>, j: nat)
    requires j < |Samples(evs)|
    ensures Samples(evs)[j].time in FirstPass(evs).buckets
  {
    var s := Samples(evs)[j];
    SampleOrigin(evs, s);
    FirstStampSome(evs, s.time);
    BucketPerTime(evs, s.time);
  }

  /** Some sample of kind `kind` has time `t`. */
  ghost predicate KindAt(ss: seq<Sample>, t: int, kind: MetricKind)
  {
    exists j :: 0 <= j < |ss| && ss[j].time == t && KindOf(ss[j].kind) == kind
  }

  /** The bucket at `t` has readings for chart `c` exactly when a sample of its kind has time `t`. */
  lemma ReadingsPresent(evs: seq<MetricsEvent>, t: int, c: Chart)
    requires t in FirstPass(evs).buckets
    ensures |Readings(FirstPass(evs).buckets[t], c)| > 0 <==> KindAt(Samples(evs), t, ChartKind(c))
  {
    var ss := Samples(evs);
    var r := Readings(FirstPass(evs).buckets[t], c);
    if |r| > 0 {
      MapHasKey(r);
      var p :| p in r;
      BucketReading(evs, t, c, p);
      ReadingSome(ss, t, c, p);
      var j :| 0 <= j < |ss| && Hit(ss[j], t, ChartKind(c), p);
    }
    if KindAt(ss, t, ChartKind(c)) {
      var j :| 0 <= j < |ss| && ss[j].time == t && KindOf(ss[j].kind) == ChartKind(c);
      var p := NormalizeProcessor(ss[j].entry.processor);
      assert Hit(ss[j], t, ChartKind(c), p);
      ReadingSome(ss, t, c, p);
      BucketReading(evs, t, c, p);
      assert p in r;
    }
  }

  // ---------------------------------------------------------------------
  // The four series, against the samples
  // ---------------------------------------------------------------------

  predicate Chronological(pts: seq<Point>)
  {
    forall k, l :: 0 <= k < l < |pts| ==> pts[k].time < pts[l].time
  }

  predicate ChronologicalTokens(pts: seq<TokensPoint>)
  {
    forall k, l :: 0 <= k < l < |pts| ==> pts[k].time < pts[l].time
  }

  /** The sorted buckets of the first pass list every bucket once, in increasing time. */
  lemma SortedBuckets(evs: seq<MetricsEvent>)
    ensures var m := FirstPass(evs).buckets; var bs := Ordered(m);
      && TimesIncrease(bs)
      && (forall i :: 0 <= i < |bs| ==> bs[i].time in m && bs[i] == m[bs[i].time])
      && (forall t | t in m :: exists i :: 0 <= i < |bs| && bs[i].time == t)
  {
    FirstPassKeyed(evs);
    OrderedBuckets(FirstPass(evs).buckets);
  }

  /** Every series is strictly increasing in time: one point per time at most. */
  lemma SeriesIncreasing(evs: seq<MetricsEvent>)
    ensures Chronological(TimelineOf(evs).ttfb)
    ensures Chronological(TimelineOf(evs).processing)
    ensures ChronologicalTokens(TimelineOf(evs).tokens)
    ensures Chronological(TimelineOf(evs).characters)
  {
    var bs := Ordered(FirstPass(evs).buckets);
    SortedBuckets(evs);
    ChartPointsIncrease(bs, Ttfb, ChartProcessors(bs, Ttfb));
    ChartPointsIncrease(bs, Processing, ChartProcessors(bs, Processing));
    TokenPointsIncrease(bs, TokenProcessors(bs));
    ChartPointsIncrease(bs, Characters, ChartProcessors(bs, Characters));
  }

  /** The series of chart `c` is built from the sorted buckets of the first pass. */
  lemma SeriesPoints(evs: seq<MetricsEvent>, c: Chart)
    ensures var bs := Ordered(FirstPass(evs).buckets);
      Series(TimelineOf(evs), c) == ChartPoints(bs, c, ChartProcessors(bs, c))
  {
  }

  /** Each point of chart `c` is the filled point of the bucket filed under its time. */
  lemma PointFromBucket(m: map<int, Bucket>, c: Chart, k: nat)
    requires KeyedByTime(m)
    requires k < |ChartPoints(Ordered(m), c, ChartProcessors(Ordered(m), c))|
    ensures var pt := ChartPoints(Ordered(m), c, ChartProcessors(Ordered(m), c))[k];
      && pt.time in m && |Readings(m[pt.time], c)| > 0
      && pt == FilledPoint(m[pt.time], c, ChartProcessors(Ordered(m), c))
  {
    var bs := Ordered(m);
    var procs := ChartProcessors(bs, c);
    OrderedBuckets(m);
    ChartPointsFrom(bs, c, procs);
    var i :| 0 <= i < |bs| && |Readings(bs[i], c)| > 0 && ChartPoints(bs, c, procs)[k] == FilledPoint(bs[i], c, procs);
  }

  /** Each bucket with readings for chart `c` gives a point of chart `c`. */
  lemma BucketGivesPoint(m: map<int, Bucket>, c: Chart, t: int)
    requires KeyedByTime(m) && t in m && |Readings(m[t], c)| > 0
    ensures FilledPoint(m[t], c, ChartProcessors(Ordered(m), c)) in ChartPoints(Ordered(m), c, ChartProcessors(Ordered(m), c))
  {
    var bs := Ordered(m);
    OrderedBuckets(m);
    var i :| 0 <= i < |bs| && bs[i].time == t;
    ChartPointsCover(bs, c, ChartProcessors(bs, c));
  }

  lemma PointHasKind(evs: seq<MetricsEvent>, c: Chart, k: nat)
    requires k < |Series(TimelineOf(evs), c)|
    ensures KindAt(Samples(evs), Series(TimelineOf(evs), c)[k].time, ChartKind(c))
  {
    var m := FirstPass(evs).buckets;
    SeriesPoints(evs, c);
    FirstPassKeyed(evs);
    PointFromBucket(m, c, k);
    ReadingsPresent(evs, Series(TimelineOf(evs), c)[k].time, c);
  }

  lemma KindHasReadings(evs: seq<MetricsEvent>, c: Chart, t: int)
    requires KindAt(Samples(evs), t, ChartKind(c))
    ensures t in FirstPass(evs).buckets && |Readings(FirstPass(evs).buckets[t], c)| > 0
  {
    var ss := Samples(evs);
    var j :| 0 <= j < |ss| && ss[j].time == t && KindOf(ss[j].kind) == ChartKind(c);
    SampleHasBucket(evs, j);
    ReadingsPresent(evs, t, c);
  }

  lemma KindHasPoint(evs: seq<MetricsEvent>, c: Chart, t: int)
    requires KindAt(Samples(evs), t, ChartKind(c))
    ensures exists k :: 0 <= k < |Series(TimelineOf(evs), c)| && Series(TimelineOf(evs), c)[k].time == t
  {
    var m := FirstPass(evs).buckets;
    var bs := Ordered(m);
    var pts := ChartPoints(bs, c, ChartProcessors(bs, c));
    KindHasReadings(evs, c, t);
    FirstPassKeyed(evs);
    BucketGivesPoint(m, c, t);
    var k :| 0 <= k < |pts| && pts[k] == FilledPoint(m[t], c, ChartProcessors(bs, c));
    assert pts[k].time == t;
    SeriesPoints(evs, c);
  }

  /** Chart `c` has a point at time `t` exactly when some entry of its kind has time `t`. */
  lemma ChartTimes(evs: seq<MetricsEvent>, c: Chart, t: int)
    ensures (exists k :: 0 <= k < |Series(TimelineOf(evs), c)| && Series(TimelineOf(evs), c)[k].time == t)
        <==> KindAt(Samples(evs), t, ChartKind(c))
  {
    var pts := Series(TimelineOf(evs), c);
    if exists k :: 0 <= k < |pts| && pts[k].time == t {
      var k :| 0 <= k < |pts| && pts[k].time == t;
      PointHasKind(evs, c, k);
    }
    if KindAt(Samples(evs), t, ChartKind(c)) {
      KindHasPoint(evs, c, t);
    }
  }

  /** Some entry of kind `kind` anywhere in the input belongs to processor `p`. */
  ghost predicate Seen(ss: seq<Sample>, kind: MetricKind, p: string)
  {
    exists j :: 0 <= j < |ss| && KindOf(ss[j].kind) == kind && NormalizeProcessor(ss[j].entry.processor) == p
  }

  /** `allProcessors[c]` holds exactly the processors with some entry of chart `c`'s kind. */
  lemma ProcessorsSeen(evs: seq<MetricsEvent>, c: Chart, p: string)
    ensures p in ChartProcessors(Ordered(FirstPass(evs).buckets), c) <==> Seen(Samples(evs), ChartKind(c), p)
  {
    if p in ChartProcessors(Ordered(FirstPass(evs).buckets), c) {
      CollectedIsSeen(evs, c, p);
    }
    if Seen(Samples(evs), ChartKind(c), p) {
      SeenIsCollected(evs, c, p);
    }
  }

  lemma CollectedIsSeen(evs: seq<MetricsEvent>, c: Chart, p: string)
    requires p in ChartProcessors(Ordered(FirstPass(evs).buckets), c)
    ensures Seen(Samples(evs), ChartKind(c), p)
  {
    var m := FirstPass(evs).buckets;
    var ss := Samples(evs);
    var bs := Ordered(m);
    FirstPassKeyed(evs);
    OrderedBuckets(m);
    var i :| 0 <= i < |bs| && p in Readings(bs[i], c);
    var t := bs[i].time;
    BucketReading(evs, t, c, p);
    ReadingSome(ss, t, c, p);
    var j :| 0 <= j < |ss| && Hit(ss[j], t, ChartKind(c), p);
  }

  lemma SeenIsCollected(evs: seq<MetricsEvent>, c: Chart, p: string)
    requires Seen(Samples(evs), ChartKind(c), p)
    ensures p in ChartProcessors(Ordered(FirstPass(evs).buckets), c)
  {
    var ss := Samples(evs);
    var j :| 0 <= j < |ss| && KindOf(ss[j].kind) == ChartKind(c) && NormalizeProcessor(ss[j].entry.processor) == p;
    var t := ss[j].time;
    assert Hit(ss[j], t, ChartKind(c), p);
    SampleHasBucket(evs, j);
    ReadingSome(ss, t, c, p);
    BucketReading(evs, t, c, p);
    FirstPassKeyed(evs);
    ReadingCollected(FirstPass(evs).buckets, c, t, p);
  }

  lemma ReadingCollected(m: map<int, Bucket>, c: Chart, t: int, p: string)
    requires KeyedByTime(m) && t in m && p in Readings(m[t], c)
    ensures p in ChartProcessors(Ordered(m), c)
  {
    var bs := Ordered(m);
    OrderedBuckets(m);
    var i :| 0 <= i < |bs| && bs[i].time == t;
    assert p in Readings(bs[i], c);
  }

  /**
   * Each point of chart `c` carries the stamp of the first event at its time and one
   * field per processor ever seen for that chart: the chart's reading at that time,
   * or `None` (null) when that processor has none there, never 0.
   */
  lemma ChartPointValues(evs: seq<MetricsEvent>, c: Chart, k: nat, p: string)
    requires k < |Series(TimelineOf(evs), c)|
    ensures var pt := Series(TimelineOf(evs), c)[k];
      && FirstStamp(evs, pt.time) == Some(pt.stamp)
      && (p in pt.values <==> Seen(Samples(evs), ChartKind(c), p))
      && (p in pt.values ==> pt.values[p] == Reading(Samples(evs), pt.time, c, p))
  {
    var m := FirstPass(evs).buckets;
    var pt := Series(TimelineOf(evs), c)[k];
    SeriesPoints(evs, c);
    FirstPassKeyed(evs);
    PointFromBucket(m, c, k);
    BucketPerTime(evs, pt.time);
    BucketReading(evs, pt.time, c, p);
    ProcessorsSeen(evs, c, p);
  }

  // ---------------------------------------------------------------------
  // The tokens series
  // ---------------------------------------------------------------------

  lemma TokenSeriesPoints(evs: seq<MetricsEvent>)
    ensures var bs := Ordered(FirstPass(evs).buckets);
      TimelineOf(evs).tokens == TokenPoints(bs, TokenProcessors(bs))
  {
  }

  lemma TokenPointFromBucket(m: map<int, Bucket>, k: nat)
    requires KeyedByTime(m)
    requires k < |TokenPoints(Ordered(m), TokenProcessors(Ordered(m)))|
    ensures var pt := TokenPoints(Ordered(m), TokenProcessors(Ordered(m)))[k];
      && pt.time in m && |m[pt.time].tokens| > 0
      && pt == SparsePoint(m[pt.time], TokenProcessors(Ordered(m)))
  {
    var bs := Ordered(m);
    var procs := TokenProcessors(bs);
    OrderedBuckets(m);
    TokenPointsFrom(bs, procs);
    var i :| 0 <= i < |bs| && |bs[i].tokens| > 0 && TokenPoints(bs, procs)[k] == SparsePoint(bs[i], procs);
  }

  lemma BucketGivesTokenPoint(m: map<int, Bucket>, t: int)
    requires KeyedByTime(m) && t in m && |m[t].tokens| > 0
    ensures SparsePoint(m[t], TokenProcessors(Ordered(m))) in TokenPoints(Ordered(m), TokenProcessors(Ordered(m)))
  {
    var bs := Ordered(m);
    OrderedBuckets(m);
    var i :| 0 <= i < |bs| && bs[i].time == t;
    TokenPointsCover(bs, TokenProcessors(bs));
  }

  lemma TokensPresent(evs: seq<MetricsEvent>, t: int)
    requires t in FirstPass(evs).buckets
    ensures |FirstPass(evs).buckets[t].tokens| > 0 <==> KindAt(Samples(evs), t, TokensKind)
  {
    var ss := Samples(evs);
    var r := FirstPass(evs).buckets[t].tokens;
    if |r| > 0 {
      MapHasKey(r);
      var p :| p in r;
      CumulativeBucket(evs, t, p);
      TokensAtSome(ss, t, p);
      var j :| 0 <= j < |ss| && Hit(ss[j], t, TokensKind, p);
    }
    if KindAt(ss, t, TokensKind) {
      var j :| 0 <= j < |ss| && ss[j].time == t && KindOf(ss[j].kind) == TokensKind;
      var p := NormalizeProcessor(ss[j].entry.processor);
      assert Hit(ss[j], t, TokensKind, p);
      TokensAtSome(ss, t, p);
      CumulativeBucket(evs, t, p);
      assert p in r;
    }
  }

  /** The tokens chart has a point at time `t` exactly when some "tokens" entry has time `t`. */
  lemma TokenTimes(evs: seq<MetricsEvent>, t: int)
    ensures (exists k :: 0 <= k < |TimelineOf(evs).tokens| && TimelineOf(evs).tokens[k].time == t)
        <==> KindAt(Samples(evs), t, TokensKind)
  {
    var m := FirstPass(evs).buckets;
    var ss := Samples(evs);
    var bs := Ordered(m);
    var pts := TokenPoints(bs, TokenProcessors(bs));
    TokenSeriesPoints(evs);
    FirstPassKeyed(evs);
    if exists k :: 0 <= k < |pts| && pts[k].time == t {
      var k :| 0 <= k < |pts| && pts[k].time == t;
      TokenPointFromBucket(m, k);
      TokensPresent(evs, t);
    }
    if KindAt(ss, t, TokensKind) {
      var j :| 0 <= j < |ss| && ss[j].time == t && KindOf(ss[j].kind) == TokensKind;
      SampleHasBucket(evs, j);
      TokensPresent(evs, t);
      BucketGivesTokenPoint(m, t);
      var k :| 0 <= k < |pts| && pts[k] == SparsePoint(m[t], TokenProcessors(bs));
      assert pts[k].time == t;
    }
  }

  /**
   * Each tokens point carries the stamp of the first event at its time and, for exactly
   * the processors with a "tokens" entry at that time, their running sums after their
   * last entry there; other processors are absent (no null-filling).
   */
  lemma TokenPointCounts(evs: seq<MetricsEvent>, k: nat, p: string)
    requires k < |TimelineOf(evs).tokens|
    ensures var pt := TimelineOf(evs).tokens[k];
      && FirstStamp(evs, pt.time) == Some(pt.stamp)
      && (p in pt.counts <==> TokensAt(Samples(evs), pt.time, p).Some?)
      && (p in pt.counts ==> pt.counts[p] == TokensAt(Samples(evs), pt.time, p).value)
  {
    var m := FirstPass(evs).buckets;
    var bs := Ordered(m);
    var pt := TimelineOf(evs).tokens[k];
    TokenSeriesPoints(evs);
    FirstPassKeyed(evs);
    TokenPointFromBucket(m, k);
    BucketPerTime(evs, pt.time);
    CumulativeBucket(evs, pt.time, p);
    if p in m[pt.time].tokens {
      OrderedBuckets(m);
      var i :| 0 <= i < |bs| && bs[i].time == pt.time;
      assert p in TokenProcessors(bs);
    }
  }

  // ---------------------------------------------------------------------
  // Characters never decrease
  // ---------------------------------------------------------------------

  /** The events arrive in non-decreasing time. */
  predicate InTimeOrder(evs: seq<MetricsEvent>)
  {
    forall i, j :: 0 <= i < j < |evs| ==> evs[i].time <= evs[j].time
  }

  predicate SamplesInOrder(ss: seq<Sample>)
  {
    forall i, j :: 0 <= i < j < |ss| ==> ss[i].time <= ss[j].time
  }

  /** Every "characters" entry has a non-negative value. */
  predicate CharactersNonNegative(ss: seq<Sample>)
  {
    forall j :: 0 <= j < |ss| && KindOf(ss[j].kind) == CharactersKind ==> ss[j].entry.value >= 0
  }

  lemma {:induction false} SamplesFollowEvents(evs: seq<MetricsEvent>)
    requires InTimeOrder(evs)
    ensures SamplesInOrder(Samples(evs))
  {
    if evs != [] {
      var n := |evs| - 1;
      var pre := Samples(evs[..n]);
      var es := EventSamples(evs[n]);
      assert InTimeOrder(evs[..n]);
      SamplesFollowEvents(evs[..n]);
      forall x | 0 <= x < |pre| ensures pre[x].time <= evs[n].time {
        SampleOrigin(evs[..n], pre[x]);
        var i :| 0 <= i < n && evs[..n][i].time == pre[x].time && evs[..n][i].stamp == pre[x].stamp;
        assert evs[i] == evs[..n][i];
      }
      forall y | 0 <= y < |es| ensures es[y].time == evs[n].time {
        assert es[y] in es;
      }
      assert Samples(evs) == pre + es;
      OrderedConcat(pre, es, evs[n].time);
    }
  }

  /** Time-ordered samples followed by samples all at a time no earlier are in order. */
  lemma OrderedConcat(pre: seq<Sample>, es: seq<Sample>, t: int)
    requires SamplesInOrder(pre)
    requires forall x | 0 <= x < |pre| :: pre[x].time <= t
    requires forall y | 0 <= y < |es| :: es[y].time == t
    ensures SamplesInOrder(pre + es)
  {
    var ss := pre + es;
    forall i, j | 0 <= i < j < |ss| ensures ss[i].time <= ss[j].time {
      if j < |pre| {
        assert ss[i] == pre[i] && ss[j] == pre[j];
      } else if i < |pre| {
        assert ss[i] == pre[i] && ss[j] == es[j - |pre|];
      } else {
        assert ss[i] == es[i - |pre|] && ss[j] == es[j - |pre|];
      }
    }
  }

  /** A characters reading is the running sum up to and including one of its hits, `j`. */
  lemma {:induction false} CharsAtHit(ss: seq<Sample>, t: int, p: string) returns (j: nat)
    requires CharsAt(ss, t, p).Some?
    ensures j < |ss| && Hit(ss[j], t, CharactersKind, p) && CharsAt(ss, t, p).value == CharTotal(ss[..j + 1], p)
  {
    var n := |ss| - 1;
    if Hit(ss[n], t, CharactersKind, p) {
      assert ss[..n + 1] == ss;
      j := n;
    } else {
      assert CharsAt(ss, t, p) == CharsAt(ss[..n], t, p);
      j := CharsAtHit(ss[..n], t, p);
      assert ss[..n][..j + 1] == ss[..j + 1];
      assert ss[j] == ss[..n][j];
    }
  }

  /** On time-ordered samples, a sample at an earlier time sits at an earlier index. */
  lemma EarlierIndex(ss: seq<Sample>, j1: nat, j2: nat)
    requires SamplesInOrder(ss) && j1 < |ss| && j2 < |ss| && ss[j1].time < ss[j2].time
    ensures j1 < j2
  {
  }

  lemma {:induction false} CharTotalGrows(ss: seq<Sample>, a: nat, b: nat, p: string)
    requires a <= b <= |ss| && CharactersNonNegative(ss)
    ensures CharTotal(ss[..a], p) <= CharTotal(ss[..b], p)
    decreases b - a
  {
    if a < b {
      CharTotalGrows(ss, a, b - 1, p);
      assert ss[..b][..b - 1] == ss[..b - 1];
      assert ss[..b][b - 1] == ss[b - 1];
    }
  }

  /** On time-ordered samples, the characters reading of `p` at an earlier time is at
      most its reading at a later time. */
  lemma CharsAtOrdered(ss: seq<Sample>, t1: int, t2: int, p: string)
    requires SamplesInOrder(ss) && CharactersNonNegative(ss) && t1 < t2
    requires CharsAt(ss, t1, p).Some? && CharsAt(ss, t2, p).Some?
    ensures CharsAt(ss, t1, p).value <= CharsAt(ss, t2, p).value
  {
    var j1 := CharsAtHit(ss, t1, p);
    var j2 := CharsAtHit(ss, t2, p);
    EarlierIndex(ss, j1, j2);
    CharTotalGrows(ss, j1 + 1, j2 + 1, p);
  }

  /**
   * With events in time order and non-negative "characters" values, a processor's
   * characters reading at an earlier point is at most its reading at a later point.
   */
  lemma CharactersNonDecreasing(evs: seq<MetricsEvent>, k: nat, l: nat, p: string)
    requires InTimeOrder(evs) && CharactersNonNegative(Samples(evs))
    requires k < l < |TimelineOf(evs).characters|
    requires p in TimelineOf(evs).characters[k].values && TimelineOf(evs).characters[k].values[p].Some?
    requires p in TimelineOf(evs).characters[l].values && TimelineOf(evs).characters[l].values[p].Some?
    ensures TimelineOf(evs).characters[k].values[p].value <= TimelineOf(evs).characters[l].values[p].value
  {
    var ss := Samples(evs);
    var pts := TimelineOf(evs).characters;
    assert pts == Series(TimelineOf(evs), Characters);
    assert pts[k].time < pts[l].time by {
      SeriesIncreasing(evs);
    }
    assert pts[k].values[p] == CharsAt(ss, pts[k].time, p) by {
      ChartPointValues(evs, Characters, k, p);
    }
    assert pts[l].values[p] == CharsAt(ss, pts[l].time, p) by {
      ChartPointValues(evs, Characters, l, p);
    }
    SamplesFollowEvents(evs);
    CharsAtOrdered(ss, pts[k].time, pts[l].time, p);
  }

  // ---------------------------------------------------------------------
  // Token counts never decrease
  // ---------------------------------------------------------------------

  /** Every "tokens" entry has non-negative completion, prompt and total counts and a
      non-negative value (the fallback for a missing or zero total). */
  predicate TokensNonNegative(ss: seq<Sample>)
  {
    forall j :: 0 <= j < |ss| && KindOf(ss[j].kind) == TokensKind ==>
      && OrZero(ss[j].entry.completionTokens) >= 0
      && OrZero(ss[j].entry.promptTokens) >= 0
      && OrZero(ss[j].entry.totalTokens) >= 0
      && ss[j].entry.value >= 0
  }

  /** Each of the three counts of `a` is at most the same count of `b`. */
  predicate TokensAtMost(a: Tokens, b: Tokens)
  {
    a.completion <= b.completion && a.prompt <= b.prompt && a.total <= b.total
  }

  /** A tokens reading is the running sums up to and including one of its hits, `j`. */
  lemma {:induction false} TokensAtHit(ss: seq<Sample>, t: int, p: string) returns (j: nat)
    requires TokensAt(ss, t, p).Some?
    ensures j < |ss| && Hit(ss[j], t, TokensKind, p) && TokensAt(ss, t, p).value == TokenTotal(ss[..j + 1], p)
  {
    var n := |ss| - 1;
    if Hit(ss[n], t, TokensKind, p) {
      assert ss[..n + 1] == ss;
      j := n;
    } else {
      assert TokensAt(ss, t, p) == TokensAt(ss[..n], t, p);
      j := TokensAtHit(ss[..n], t, p);
      assert ss[..n][..j + 1] == ss[..j + 1];
      assert ss[j] == ss[..n][j];
    }
  }

  /** With non-negative entries, each running token sum never decreases along the walk. */
  lemma {:induction false} TokenTotalGrows(ss: seq<Sample>, a: nat, b: nat, p: string)
    requires a <= b <= |ss| && TokensNonNegative(ss)
    ensures TokensAtMost(TokenTotal(ss[..a], p), TokenTotal(ss[..b], p))
    decreases b - a
  {
    if a < b {
      TokenTotalGrows(ss, a, b - 1, p);
      assert ss[..b][..b - 1] == ss[..b - 1];
      assert ss[..b][b - 1] == ss[b - 1];
    }
  }

  /** On time-ordered samples, the token sums of `p` at an earlier time are at most its
      sums at a later time, count by count. */
  lemma TokensAtOrdered(ss: seq<Sample>, t1: int, t2: int, p: string)
    requires SamplesInOrder(ss) && TokensNonNegative(ss) && t1 < t2
    requires TokensAt(ss, t1, p).Some? && TokensAt(ss, t2, p).Some?
    ensures TokensAtMost(TokensAt(ss, t1, p).value, TokensAt(ss, t2, p).value)
  {
    var j1 := TokensAtHit(ss, t1, p);
    var j2 := TokensAtHit(ss, t2, p);
    assert j1 < j2 by {
      assert ss[j1].time == t1 && ss[j2].time == t2;
      EarlierIndex(ss, j1, j2);
    }
    assert TokensAtMost(TokenTotal(ss[..j1 + 1], p), TokenTotal(ss[..j2 + 1], p)) by {
      TokenTotalGrows(ss, j1 + 1, j2 + 1, p);
    }
  }

  /**
   * With events in time order and non-negative "tokens" entries, a processor's
   * completion, prompt and total counts at an earlier tokens point are each at most
   * the same count at a later point where the processor appears.
   */
  lemma TokensNonDecreasing(evs: seq<MetricsEvent>, k: nat, l: nat, p: string)
    requires InTimeOrder(evs) && TokensNonNegative(Samples(evs))
    requires k < l < |TimelineOf(evs).tokens|
    requires p in TimelineOf(evs).tokens[k].counts && p in TimelineOf(evs).tokens[l].counts
    ensures TokensAtMost(TimelineOf(evs).tokens[k].counts[p], TimelineOf(evs).tokens[l].counts[p])
  {
    var ss := Samples(evs);
    var pts := TimelineOf(evs).tokens;
    assert pts[k].time < pts[l].time by {
      SeriesIncreasing(evs);
    }
    TokenPointCounts(evs, k, p);
    TokenPointCounts(evs, l, p);
    SamplesFollowEvents(evs);
    TokensAtOrdered(ss, pts[k].time, pts[l].time, p);
  }

  // ---------------------------------------------------------------------
  // Skipped fields
  // ---------------------------------------------------------------------

  /** A data field the timeline skips: its value is not an array, or its kind is none of the four. */
  predicate Skipped(f: Field)
  {
    f.value.NotArray? || KindOf(f.kind) == OtherKind
  }

  lemma {:induction false} SkippedFieldsSamples(ev: MetricsEvent, fs: seq<Field>)
    requires forall i :: 0 <= i < |fs| ==> Skipped(fs[i])
    ensures forall j :: 0 <= j < |FieldsSamples(ev, fs)| ==> KindOf(FieldsSamples(ev, fs)[j].kind) == OtherKind
  {
    if fs != [] {
      var n := |fs| - 1;
      SkippedFieldsSamples(ev, fs[..n]);
      assert Skipped(fs[n]);
      var pre := FieldsSamples(ev, fs[..n]);
      var last := FieldSamples(ev, fs[n]);
      assert forall j :: 0 <= j < |last| ==> last[j].kind == fs[n].kind;
      assert FieldsSamples(ev, fs) == pre + last;
    }
  }

  lemma {:induction false} OtherSamplesChangeNothing(acc: Acc, t: int, xs: seq<Sample>)
    requires t in acc.buckets
    requires forall j :: 0 <= j < |xs| ==> KindOf(xs[j].kind) == OtherKind
    ensures ApplySamples(acc, t, xs) == acc
  {
    if xs != [] {
      var n := |xs| - 1;
      OtherSamplesChangeNothing(acc, t, xs[..n]);
      assert KindOf(xs[n].kind) == OtherKind;
    }
  }

  /**
   * An event whose fields are all skipped changes no counter and no existing bucket;
   * it only opens an empty bucket at its time when none exists, and it contributes a
   * point to no series.
   */
  lemma IgnoredEvent(acc: Acc, ev: MetricsEvent)
    requires forall i :: 0 <= i < |ev.data| ==> Skipped(ev.data[i])
    ensures ApplyEvent(acc, ev).cumTokens == acc.cumTokens
    ensures ApplyEvent(acc, ev).cumChars == acc.cumChars
    ensures ApplyEvent(acc, ev).buckets.Keys == acc.buckets.Keys + {ev.time}
    ensures forall u | u in acc.buckets :: ApplyEvent(acc, ev).buckets[u] == acc.buckets[u]
    ensures ev.time !in acc.buckets ==>
      ApplyEvent(acc, ev).buckets[ev.time] == Bucket(ev.stamp, ev.time, map[], map[], map[], map[])
  {
    SkippedFieldsSamples(ev, ev.data);
    OtherSamplesChangeNothing(OpenBucket(acc, ev), ev.time, EventSamples(ev));
  }

  // ---------------------------------------------------------------------
  // A worked example: running token totals
  // ---------------------------------------------------------------------

  /** Three "tokens" readings of one processor at increasing times. */
  predicate ThreeTokenSamples(x1: Sample, x2: Sample, x3: Sample)
  {
    && x1.time < x2.time < x3.time
    && x1.kind == x2.kind == x3.kind == "tokens"
    && x1.entry.processor == x2.entry.processor == x3.entry.processor
  }

  /** The running sums add each reading's amounts, in input order. */
  lemma TokenTotalsOfThree(x1: Sample, x2: Sample, x3: Sample)
    requires ThreeTokenSamples(x1, x2, x3)
    ensures var p := NormalizeProcessor(x1.entry.processor);
      && TokenTotal([x1], p) == TokenDelta(x1.entry)
      && TokenTotal([x1, x2], p) == AddTokens(TokenDelta(x1.entry), TokenDelta(x2.entry))
      && TokenTotal([x1, x2, x3], p) == AddTokens(AddTokens(TokenDelta(x1.entry), TokenDelta(x2.entry)), TokenDelta(x3.entry))
  {
    assert KindOf("tokens") == TokensKind;
    assert [x1, x2][..1] == [x1];
    assert [x1, x2, x3][..2] == [x1, x2];
  }

  /** Each time keeps the copy of the sums taken at its own reading: the later readings
      do not change what the earlier times show. */
  lemma TokensKeepTheirCopy(x1: Sample, x2: Sample, x3: Sample)
    requires ThreeTokenSamples(x1, x2, x3)
    ensures var p := NormalizeProcessor(x1.entry.processor);
      && TokensAt([x1, x2, x3], x1.time, p) == Some(TokenTotal([x1], p))
      && TokensAt([x1, x2, x3], x2.time, p) == Some(TokenTotal([x1, x2], p))
      && TokensAt([x1, x2, x3], x3.time, p) == Some(TokenTotal([x1, x2, x3], p))
  {
    assert KindOf("tokens") == TokensKind;
    assert [x1, x2][..1] == [x1];
    assert [x1, x2, x3][..2] == [x1, x2];
    var p := NormalizeProcessor(x1.entry.processor);
    assert TokensAt([x1, x2], x1.time, p) == TokensAt([x1], x1.time, p);
    assert TokensAt([x1, x2, x3], x1.time, p) == TokensAt([x1, x2], x1.time, p);
    assert TokensAt([x1, x2, x3], x2.time, p) == TokensAt([x1, x2], x2.time, p);
  }

  /** An entry carrying only `total_tokens`, with no completion or prompt count. */
  predicate TotalOnly(e: MetricEntry, total: Option<int>)
  {
    e.completionTokens == None && e.promptTokens == None && e.totalTokens == total
  }

  /** Totals 10, 5 and a falsy 0 carrying the value 7 read 10, 15 and 22 at the three
      times; the completion and prompt sums, absent throughout, stay 0. */
  lemma TokensTenFiveSeven(x1: Sample, x2: Sample, x3: Sample)
    requires ThreeTokenSamples(x1, x2, x3)
    requires TotalOnly(x1.entry, Some(10)) && TotalOnly(x2.entry, Some(5))
    requires TotalOnly(x3.entry, Some(0)) && x3.entry.value == 7
    ensures var p := NormalizeProcessor(x1.entry.processor);
      && TokensAt([x1, x2, x3], x1.time, p) == Some(Tokens(0, 0, 10))
      && TokensAt([x1, x2, x3], x2.time, p) == Some(Tokens(0, 0, 15))
      && TokensAt([x1, x2, x3], x3.time, p) == Some(Tokens(0, 0, 22))
  {
    assert TokenDelta(x1.entry) == Tokens(0, 0, 10);
    assert TokenDelta(x2.entry) == Tokens(0, 0, 5);
    assert TokenDelta(x3.entry) == Tokens(0, 0, 7);
    TokenTotalsOfThree(x1, x2, x3);
    TokensKeepTheirCopy(x1, x2, x3);
  }
}

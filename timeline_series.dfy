/**
 * The second pass of processMetricsForTimeline (TimelineCharts.tsx): the
 * buckets are taken in ascending time order, the processors of each chart are
 * collected over all buckets, and four series are emitted. In the "ttfb",
 * "processing" and "characters" series every collected processor has a value
 * at every point, `None` (JavaScript `null`) where the bucket has no reading;
 * the "tokens" series is sparse.
 */
module TimelineSeries {
  import opened MetricTypes
  import opened TimelineMap

  /** The three null-filled charts. */
  datatype Chart = Ttfb | Processing | Characters

  function Readings(b: Bucket, c: Chart): map<string, int>
  {
    match c
    case Ttfb => b.ttfb
    case Processing => b.processing
    case Characters => b.characters
  }

  /** A point of a null-filled chart: its stamp, its time and one value or null per processor. */
  datatype Point = Point(stamp: string, time: int, values: map<string, Option<int>>)

  /** A point of the tokens chart: only the processors with counters in its bucket. */
  datatype TokensPoint = TokensPoint(stamp: string, time: int, counts: map<string, Tokens>)

  /** The four series processMetricsForTimeline returns. */
  datatype Timeline = Timeline(ttfb: seq<Point>, processing: seq<Point>, tokens: seq<TokensPoint>, characters: seq<Point>)

  predicate Increasing(ts: seq<int>)
  {
    forall i, j :: 0 <= i < j < |ts| ==> ts[i] < ts[j]
  }

  // ---------------------------------------------------------------------
  // Ordering the buckets
  // ---------------------------------------------------------------------

  /** A non-empty set has an element. */
  lemma Inhabited(s: set<int>)
    requires s != {}
    ensures exists t :: t in s
  {
    if forall t :: t !in s {
      assert false;
    }
  }

  lemma {:induction false} LeastExists(s: set<int>)
    requires s != {}
    ensures exists m :: m in s && forall x | x in s :: m <= x
    decreases |s|
  {
    Inhabited(s);
    var x :| x in s;
    var rest := s - {x};
    forall z | z in s && z != x ensures z in rest {
    }
    if rest == {} {
      assert forall z | z in s :: z == x;
    } else {
      LeastExists(rest);
      var y :| y in rest && forall z | z in rest :: y <= z;
      if x < y {
        assert forall z | z in s :: x <= z;
      } else {
        assert forall z | z in s :: y <= z;
      }
    }
  }

  /** The least time of a non-empty set. */
  ghost function Min(s: set<int>): (m: int)
    requires s != {}
    ensures m in s && forall x | x in s :: m <= x
  {
    LeastExists(s);
    var m :| m in s && forall x | x in s :: m <= x;
    m
  }

  /** The times of `s` in ascending order, each once. */
  ghost function SortedTimes(s: set<int>): (r: seq<int>)
    ensures Increasing(r) && |r| == |s|
    ensures forall k :: 0 <= k < |r| ==> r[k] in s
    decreases |s|
  {
    if s == {} then []
    else
      var m := Min(s);
      [m] + SortedTimes(s - {m})
  }

  /** Every time of `s` has its place in `SortedTimes(s)`. */
  lemma {:induction false} SortedTimesComplete(s: set<int>, t: int)
    requires t in s
    ensures exists k :: 0 <= k < |SortedTimes(s)| && SortedTimes(s)[k] == t
    decreases |s|
  {
    var m := Min(s);
    if t == m {
      assert SortedTimes(s)[0] == t;
    } else {
      SortedTimesComplete(s - {m}, t);
      var k :| 0 <= k < |SortedTimes(s - {m})| && SortedTimes(s - {m})[k] == t;
      assert SortedTimes(s)[k + 1] == t;
    }
  }

  /** `sortedEntries`: the buckets of `m` in ascending order of their keys. */
  ghost function Ordered(m: map<int, Bucket>): (bs: seq<Bucket>)
  {
    var ts := SortedTimes(m.Keys);
    seq(|ts|, i requires 0 <= i < |ts| => m[ts[i]])
  }

  /** `timelineMap.entries()` sorted by `(a, b) => a - b`: ascending, every key once. */
  method SortKeys(keys: set<int>) returns (sorted: seq<int>)
    ensures sorted == SortedTimes(keys)
  {
    sorted := [];
    var rest := keys;
    while rest != {}
      invariant sorted + SortedTimes(rest) == SortedTimes(keys)
      decreases |rest|
    {
      var least := Least(rest);
      assert least == Min(rest);
      assert SortedTimes(rest) == [least] + SortedTimes(rest - {least});
      sorted := sorted + [least];
      rest := rest - {least};
    }
  }

  method Least(s: set<int>) returns (m: int)
    requires s != {}
    ensures m in s && forall x | x in s :: m <= x
  {
    Inhabited(s);
    m :| m in s;
    var rest := s - {m};
    while rest != {}
      invariant rest <= s && m in s
      invariant forall x | x in s && x !in rest :: m <= x
      decreases |rest|
    {
      Inhabited(rest);
      var x :| x in rest;
      if x < m {
        m := x;
      }
      rest := rest - {x};
    }
  }

  // ---------------------------------------------------------------------
  // Specification of the second pass
  // ---------------------------------------------------------------------

  /** `allProcessors[c]`: every processor with a reading in some bucket of `bs`. */
  function ChartProcessors(bs: seq<Bucket>, c: Chart): (r: set<string>)
    ensures forall p :: p in r <==> exists i :: 0 <= i < |bs| && p in Readings(bs[i], c)
  {
    if bs == [] then {}
    else
      var n := |bs| - 1;
      var prev := ChartProcessors(bs[..n], c);
      assert forall i :: 0 <= i < n ==> bs[..n][i] == bs[i];
      prev + Readings(bs[n], c).Keys
  }

  /** `allProcessors.tokens`. */
  function TokenProcessors(bs: seq<Bucket>): (r: set<string>)
    ensures forall p :: p in r <==> exists i :: 0 <= i < |bs| && p in bs[i].tokens
  {
    if bs == [] then {}
    else
      var n := |bs| - 1;
      var prev := TokenProcessors(bs[..n]);
      assert forall i :: 0 <= i < n ==> bs[..n][i] == bs[i];
      prev + bs[n].tokens.Keys
  }

  /** A null-filled point: every processor of `procs` gets the bucket's reading or null. */
  function FilledPoint(b: Bucket, c: Chart, procs: set<string>): Point
  {
    Point(b.stamp, b.time, map p | p in procs :: Get(Readings(b, c), p))
  }

  /** A tokens point: the counters of those processors of `procs` present in the bucket. */
  function SparsePoint(b: Bucket, procs: set<string>): TokensPoint
  {
    TokensPoint(b.stamp, b.time, map p | p in procs && p in b.tokens :: b.tokens[p])
  }

  /** The points of chart `c`: one per bucket that has a reading for `c`. */
  function ChartPoints(bs: seq<Bucket>, c: Chart, procs: set<string>): seq<Point>
  {
    if bs == [] then []
    else
      var b := bs[|bs| - 1];
      ChartPoints(bs[..|bs| - 1], c, procs) + (if |Readings(b, c)| > 0 then [FilledPoint(b, c, procs)] else [])
  }

  /** The points of the tokens chart: one per bucket that has a token reading. */
  function TokenPoints(bs: seq<Bucket>, procs: set<string>): seq<TokensPoint>
  {
    if bs == [] then []
    else
      var b := bs[|bs| - 1];
      TokenPoints(bs[..|bs| - 1], procs) + (if |b.tokens| > 0 then [SparsePoint(b, procs)] else [])
  }

  lemma ChartPointsSnoc(bs: seq<Bucket>, i: nat, c: Chart, procs: set<string>)
    requires i < |bs|
    ensures ChartPoints(bs[..i + 1], c, procs)
            == ChartPoints(bs[..i], c, procs) + (if |Readings(bs[i], c)| > 0 then [FilledPoint(bs[i], c, procs)] else [])
  {
    assert bs[..i + 1][..i] == bs[..i];
  }

  lemma TokenPointsSnoc(bs: seq<Bucket>, i: nat, procs: set<string>)
    requires i < |bs|
    ensures TokenPoints(bs[..i + 1], procs)
            == TokenPoints(bs[..i], procs) + (if |bs[i].tokens| > 0 then [SparsePoint(bs[i], procs)] else [])
  {
    assert bs[..i + 1][..i] == bs[..i];
  }

  ghost function SecondPass(m: map<int, Bucket>): Timeline
  {
    var bs := Ordered(m);
    Timeline(
      ChartPoints(bs, Ttfb, ChartProcessors(bs, Ttfb)),
      ChartPoints(bs, Processing, ChartProcessors(bs, Processing)),
      TokenPoints(bs, TokenProcessors(bs)),
      ChartPoints(bs, Characters, ChartProcessors(bs, Characters)))
  }

  /** processMetricsForTimeline as a function of its input. */
  ghost function TimelineOf(evs: seq<MetricsEvent>): Timeline
  {
    SecondPass(FirstPass(evs).buckets)
  }

  // ---------------------------------------------------------------------
  // The source's loops
  // ---------------------------------------------------------------------

  /** processMetricsForTimeline: the first pass, then the second. */
  method ProcessMetricsForTimeline(events: seq<MetricsEvent>) returns (r: Timeline)
    ensures r == TimelineOf(events)
  {
    var acc := BuildTimelineMap(events);
    r := BuildSeries(acc.buckets);
  }

  /** The second pass: sort the buckets, collect the processors, emit the series. */
  method BuildSeries(timelineMap: map<int, Bucket>) returns (r: Timeline)
    ensures r == SecondPass(timelineMap)
  {
    var times := SortKeys(timelineMap.Keys);
    var sortedEntries := seq(|times|, i requires 0 <= i < |times| => timelineMap[times[i]]);
    assert sortedEntries == Ordered(timelineMap);
    var ttfbProcessors, processingProcessors, tokensProcessors, charactersProcessors := CollectProcessors(sortedEntries);
    r := EmitSeries(sortedEntries, ttfbProcessors, processingProcessors, tokensProcessors, charactersProcessors);
  }

  /** The loop that fills `allProcessors` from every bucket. */
  method CollectProcessors(sortedEntries: seq<Bucket>)
    returns (ttfbProcessors: set<string>, processingProcessors: set<string>,
             tokensProcessors: set<string>, charactersProcessors: set<string>)
    ensures ttfbProcessors == ChartProcessors(sortedEntries, Ttfb)
    ensures processingProcessors == ChartProcessors(sortedEntries, Processing)
    ensures tokensProcessors == TokenProcessors(sortedEntries)
    ensures charactersProcessors == ChartProcessors(sortedEntries, Characters)
  {
    ttfbProcessors, processingProcessors, tokensProcessors, charactersProcessors := {}, {}, {}, {};
    var i := 0;
    while i < |sortedEntries|
      invariant 0 <= i <= |sortedEntries|
      invariant ttfbProcessors == ChartProcessors(sortedEntries[..i], Ttfb)
      invariant processingProcessors == ChartProcessors(sortedEntries[..i], Processing)
      invariant tokensProcessors == TokenProcessors(sortedEntries[..i])
      invariant charactersProcessors == ChartProcessors(sortedEntries[..i], Characters)
    {
      var entry := sortedEntries[i];
      assert sortedEntries[..i + 1][..i] == sortedEntries[..i];
      ttfbProcessors := ttfbProcessors + entry.ttfb.Keys;
      processingProcessors := processingProcessors + entry.processing.Keys;
      tokensProcessors := tokensProcessors + entry.tokens.Keys;
      charactersProcessors := charactersProcessors + entry.characters.Keys;
      i := i + 1;
    }
    assert sortedEntries[..i] == sortedEntries;
  }

  /** The loop that emits one point per chart for every bucket with readings for it. */
  method EmitSeries(sortedEntries: seq<Bucket>, ttfbProcessors: set<string>, processingProcessors: set<string>,
                    tokensProcessors: set<string>, charactersProcessors: set<string>) returns (r: Timeline)
    ensures r.ttfb == ChartPoints(sortedEntries, Ttfb, ttfbProcessors)
    ensures r.processing == ChartPoints(sortedEntries, Processing, processingProcessors)
    ensures r.tokens == TokenPoints(sortedEntries, tokensProcessors)
    ensures r.characters == ChartPoints(sortedEntries, Characters, charactersProcessors)
  {
    var ttfbData: seq<Point> := [];
    var processingData: seq<Point> := [];
    var tokensData: seq<TokensPoint> := [];
    var charactersData: seq<Point> := [];
    var i := 0;
    while i < |sortedEntries|
      invariant 0 <= i <= |sortedEntries|
      invariant ttfbData == ChartPoints(sortedEntries[..i], Ttfb, ttfbProcessors)
      invariant processingData == ChartPoints(sortedEntries[..i], Processing, processingProcessors)
      invariant tokensData == TokenPoints(sortedEntries[..i], tokensProcessors)
      invariant charactersData == ChartPoints(sortedEntries[..i], Characters, charactersProcessors)
    {
      var entry := sortedEntries[i];
      ChartPointsSnoc(sortedEntries, i, Ttfb, ttfbProcessors);
      ChartPointsSnoc(sortedEntries, i, Processing, processingProcessors);
      TokenPointsSnoc(sortedEntries, i, tokensProcessors);
      ChartPointsSnoc(sortedEntries, i, Characters, charactersProcessors);
      if |entry.ttfb| > 0 {
        var point := NullFilledPoint(entry, Ttfb, ttfbProcessors);
        ttfbData := ttfbData + [point];
      }
      if |entry.processing| > 0 {
        var point := NullFilledPoint(entry, Processing, processingProcessors);
        processingData := processingData + [point];
      }
      if |entry.tokens| > 0 {
        var point := TokensPointFor(entry, tokensProcessors);
        tokensData := tokensData + [point];
      }
      if |entry.characters| > 0 {
        var point := NullFilledPoint(entry, Characters, charactersProcessors);
        charactersData := charactersData + [point];
      }
      i := i + 1;
    }
    assert sortedEntries[..i] == sortedEntries;
    r := Timeline(ttfbData, processingData, tokensData, charactersData);
  }

  /** `allProcessors[c].forEach(p => point[p] = entry[c][p] ?? null)`. */
  method NullFilledPoint(entry: Bucket, c: Chart, processors: set<string>) returns (point: Point)
    ensures point == FilledPoint(entry, c, processors)
  {
    var readings := Readings(entry, c);
    var values: map<string, Option<int>> := map[];
    var rest := processors;
    while rest != {}
      invariant rest <= processors
      invariant values == map p | p in processors - rest :: Get(readings, p)
      decreases |rest|
    {
      var processor :| processor in rest;
      values := values[processor := if processor in readings then Some(readings[processor]) else None];
      rest := rest - {processor};
    }
    point := Point(entry.stamp, entry.time, values);
  }

  /** `allProcessors.tokens.forEach(p => { if (entry.tokens[p]) { ...copy the three counters } })`. */
  method TokensPointFor(entry: Bucket, processors: set<string>) returns (point: TokensPoint)
    ensures point == SparsePoint(entry, processors)
  {
    var counts: map<string, Tokens> := map[];
    var rest := processors;
    while rest != {}
      invariant rest <= processors
      invariant counts == map p | p in processors - rest && p in entry.tokens :: entry.tokens[p]
      decreases |rest|
    {
      var processor :| processor in rest;
      if processor in entry.tokens {
        counts := counts[processor := entry.tokens[processor]];
      }
      rest := rest - {processor};
    }
    point := TokensPoint(entry.stamp, entry.time, counts);
  }
}

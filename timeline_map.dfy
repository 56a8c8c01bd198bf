/**
 * The first pass of processMetricsForTimeline (TimelineCharts.tsx): events are
 * merged into one bucket per distinct time, and running per-processor
 * counters feed the cumulative kinds "tokens" and "characters".
 *
 * `FirstPass` is the specification as a left fold over the events, each event
 * a left fold over its samples (`MetricTypes.EventSamples`); the method
 * `BuildTimelineMap` is the source's nested loops, proved equal to it. The
 * lemmas then say what each bucket holds in terms of the samples alone.
 */
module TimelineMap {
  import opened MetricTypes

  /** Running token counters of one processor. */
  datatype Tokens = Tokens(completion: int, prompt: int, total: int)

  const NoTokens := Tokens(0, 0, 0)

  /** One merged time bucket: the per-kind processor readings at that time. */
  datatype Bucket = Bucket(
    stamp: string,
    time: int,
    ttfb: map<string, int>,
    processing: map<string, int>,
    tokens: map<string, Tokens>,
    characters: map<string, int>)

  /** The state of the first pass: `timelineMap`, `cumulativeTokens`, `cumulativeCharacters`. */
  datatype Acc = Acc(buckets: map<int, Bucket>, cumTokens: map<string, Tokens>, cumChars: map<string, int>)

  const Start := Acc(map[], map[], map[])

  /** The amounts one "tokens" entry adds: `completion_tokens || 0`, `prompt_tokens || 0`,
      `total_tokens || value || 0`. */
  function TokenDelta(e: MetricEntry): Tokens
  {
    var total := if e.totalTokens.Some? && e.totalTokens.value != 0 then e.totalTokens.value else e.value;
    Tokens(OrZero(e.completionTokens), OrZero(e.promptTokens), total)
  }

  function AddTokens(a: Tokens, b: Tokens): Tokens
  {
    Tokens(a.completion + b.completion, a.prompt + b.prompt, a.total + b.total)
  }

  function TokensOf(m: map<string, Tokens>, p: string): Tokens
  {
    if p in m then m[p] else NoTokens
  }

  function CharsOf(m: map<string, int>, p: string): int
  {
    if p in m then m[p] else 0
  }

  /** One array entry, visited with its kind, into the bucket at time `t`: "ttfb" and
      "processing" record the entry's value, "tokens" and "characters" first add it to
      the processor's running counters and record their new value. Kinds other than
      these four change nothing. */
  function ApplySample(acc: Acc, t: int, s: Sample): (r: Acc)
    requires t in acc.buckets
    ensures r.buckets.Keys == acc.buckets.Keys
    ensures forall u | u in acc.buckets :: r.buckets[u].time == acc.buckets[u].time
                                        && r.buckets[u].stamp == acc.buckets[u].stamp
  {
    var k := KindOf(s.kind);
    if k == OtherKind then acc
    else
      var p := NormalizeProcessor(s.entry.processor);
      var v := s.entry.value;
      var cumTokens := if k == TokensKind then acc.cumTokens[p := AddTokens(TokensOf(acc.cumTokens, p), TokenDelta(s.entry))]
                       else acc.cumTokens;
      var cumChars := if k == CharactersKind then acc.cumChars[p := CharsOf(acc.cumChars, p) + v] else acc.cumChars;
      var b := acc.buckets[t];
      var b' := Bucket(b.stamp, b.time,
        if k == TtfbKind then b.ttfb[p := v] else b.ttfb,
        if k == ProcessingKind then b.processing[p := v] else b.processing,
        if k == TokensKind then b.tokens[p := TokensOf(cumTokens, p)] else b.tokens,
        if k == CharactersKind then b.characters[p := CharsOf(cumChars, p)] else b.characters);
      Acc(acc.buckets[t := b'], cumTokens, cumChars)
  }

  /** The samples `ss` of one event, applied in order into the bucket at time `t`. */
  function ApplySamples(acc: Acc, t: int, ss: seq<Sample>): (r: Acc)
    requires t in acc.buckets
    ensures r.buckets.Keys == acc.buckets.Keys
    ensures forall u | u in acc.buckets :: r.buckets[u].time == acc.buckets[u].time
                                        && r.buckets[u].stamp == acc.buckets[u].stamp
  {
    if ss == [] then acc else ApplySample(ApplySamples(acc, t, ss[..|ss| - 1]), t, ss[|ss| - 1])
  }

  /** The bucket for the event's time, created empty (with this event's stamp) when missing. */
  function OpenBucket(acc: Acc, ev: MetricsEvent): (r: Acc)
    ensures r.buckets.Keys == acc.buckets.Keys + {ev.time}
    ensures forall u | u in acc.buckets :: r.buckets[u] == acc.buckets[u]
    ensures ev.time !in acc.buckets ==> r.buckets[ev.time].time == ev.time && r.buckets[ev.time].stamp == ev.stamp
  {
    if ev.time in acc.buckets then acc
    else acc.(buckets := acc.buckets[ev.time := Bucket(ev.stamp, ev.time, map[], map[], map[], map[])])
  }

  function ApplyEvent(acc: Acc, ev: MetricsEvent): (r: Acc)
    ensures r.buckets.Keys == acc.buckets.Keys + {ev.time}
    ensures forall u | u in acc.buckets :: r.buckets[u].time == acc.buckets[u].time
                                        && r.buckets[u].stamp == acc.buckets[u].stamp
    ensures ev.time !in acc.buckets ==> r.buckets[ev.time].time == ev.time && r.buckets[ev.time].stamp == ev.stamp
  {
    var openAcc := OpenBucket(acc, ev);
    assert forall u | u in acc.buckets :: openAcc.buckets[u] == acc.buckets[u];
    ApplySamples(openAcc, ev.time, EventSamples(ev))
  }

  /** The first pass over `evs`. */
  function FirstPass(evs: seq<MetricsEvent>): Acc
  {
    if evs == [] then Start else ApplyEvent(FirstPass(evs[..|evs| - 1]), evs[|evs| - 1])
  }

  // ---------------------------------------------------------------------
  // The source's loops
  // ---------------------------------------------------------------------

  lemma ApplySamplesSnoc(acc: Acc, t: int, ss: seq<Sample>, s: Sample)
    requires t in acc.buckets
    ensures ApplySamples(acc, t, ss + [s]) == ApplySample(ApplySamples(acc, t, ss), t, s)
  {
    assert (ss + [s])[..|ss|] == ss;
  }

  /** Applying two runs of samples one after the other is applying their concatenation. */
  lemma {:induction false} ApplySamplesAppend(acc: Acc, t: int, xs: seq<Sample>, ys: seq<Sample>)
    requires t in acc.buckets
    ensures ApplySamples(acc, t, xs + ys) == ApplySamples(ApplySamples(acc, t, xs), t, ys)
  {
    if ys == [] {
      assert xs + ys == xs;
    } else {
      var n := |ys| - 1;
      assert xs + ys == (xs + ys[..n]) + [ys[n]];
      ApplySamplesAppend(acc, t, xs, ys[..n]);
      ApplySamplesSnoc(acc, t, xs + ys[..n], ys[n]);
    }
  }

  lemma FirstPassSnoc(evs: seq<MetricsEvent>, i: nat)
    requires i < |evs|
    ensures FirstPass(evs[..i + 1]) == ApplyEvent(FirstPass(evs[..i]), evs[i])
  {
    assert evs[..i + 1][..i] == evs[..i];
  }

  /**
   * First pass of processMetricsForTimeline, loop for loop: for each event open its
   * bucket, then for each key of its data bag that holds an array, visit the entries.
   * The three loop bodies are `VisitEvent`, `VisitArray` and `VisitEntry`.
   */
  method BuildTimelineMap(events: seq<MetricsEvent>) returns (acc: Acc)
    ensures acc == FirstPass(events)
  {
    var timelineMap: map<int, Bucket> := map[];
    var cumulativeTokens: map<string, Tokens> := map[];
    var cumulativeCharacters: map<string, int> := map[];
    var i := 0;
    while i < |events|
      invariant 0 <= i <= |events|
      invariant Acc(timelineMap, cumulativeTokens, cumulativeCharacters) == FirstPass(events[..i])
    {
      FirstPassSnoc(events, i);
      timelineMap, cumulativeTokens, cumulativeCharacters :=
        VisitEvent(timelineMap, cumulativeTokens, cumulativeCharacters, events[i]);
      i := i + 1;
    }
    assert events[..i] == events;
    acc := Acc(timelineMap, cumulativeTokens, cumulativeCharacters);
  }

  /** The body of the loop over events: open the bucket, then walk the data bag's keys. */
  method VisitEvent(timelineMap: map<int, Bucket>, cumulativeTokens: map<string, Tokens>,
                    cumulativeCharacters: map<string, int>, event: MetricsEvent)
    returns (timelineMap': map<int, Bucket>, cumulativeTokens': map<string, Tokens>,
             cumulativeCharacters': map<string, int>)
    ensures Acc(timelineMap', cumulativeTokens', cumulativeCharacters')
            == ApplyEvent(Acc(timelineMap, cumulativeTokens, cumulativeCharacters), event)
  {
    ghost var openAcc := OpenBucket(Acc(timelineMap, cumulativeTokens, cumulativeCharacters), event);
    timelineMap', cumulativeTokens', cumulativeCharacters' := timelineMap, cumulativeTokens, cumulativeCharacters;
    var time := event.time;
    if time !in timelineMap' {
      timelineMap' := timelineMap'[time := Bucket(event.stamp, time, map[], map[], map[], map[])];
    }
    assert event.data[..0] == [];
    var j := 0;
    while j < |event.data|
      invariant 0 <= j <= |event.data|
      invariant time in openAcc.buckets
      invariant Acc(timelineMap', cumulativeTokens', cumulativeCharacters')
                == ApplySamples(openAcc, time, FieldsSamples(event, event.data[..j]))
    {
      var field := event.data[j];
      ghost var before := FieldsSamples(event, event.data[..j]);
      assert FieldsSamples(event, event.data[..j + 1]) == before + FieldSamples(event, field) by {
        assert event.data[..j + 1][..j] == event.data[..j];
      }
      ApplySamplesAppend(openAcc, time, before, FieldSamples(event, field));
      match field.value {
        case NotArray =>
        case Entries(entries) =>
          timelineMap', cumulativeTokens', cumulativeCharacters' :=
            VisitArray(timelineMap', cumulativeTokens', cumulativeCharacters', time, field.kind, entries, event);
      }
      j := j + 1;
    }
    assert event.data[..j] == event.data;
  }

  /** The innermost loop: the entries of one array of kind `metricType`, in index order. */
  method VisitArray(timelineMap: map<int, Bucket>, cumulativeTokens: map<string, Tokens>,
                    cumulativeCharacters: map<string, int>,
                    time: int, metricType: string, entries: seq<MetricEntry>, ghost event: MetricsEvent)
    returns (timelineMap': map<int, Bucket>, cumulativeTokens': map<string, Tokens>,
             cumulativeCharacters': map<string, int>)
    requires time in timelineMap && event.time == time
    ensures Acc(timelineMap', cumulativeTokens', cumulativeCharacters')
            == ApplySamples(Acc(timelineMap, cumulativeTokens, cumulativeCharacters), time,
                            ArraySamples(event, metricType, entries))
  {
    ghost var start := Acc(timelineMap, cumulativeTokens, cumulativeCharacters);
    timelineMap', cumulativeTokens', cumulativeCharacters' := timelineMap, cumulativeTokens, cumulativeCharacters;
    assert ArraySamples(event, metricType, entries[..0]) == [];
    var k := 0;
    while k < |entries|
      invariant 0 <= k <= |entries|
      invariant Acc(timelineMap', cumulativeTokens', cumulativeCharacters')
                == ApplySamples(start, time, ArraySamples(event, metricType, entries[..k]))
    {
      var entry := entries[k];
      ArraySamplesSnoc(event, metricType, entries, k);
      ApplySamplesSnoc(start, time, ArraySamples(event, metricType, entries[..k]),
                       Sample(time, event.stamp, metricType, entry));
      timelineMap', cumulativeTokens', cumulativeCharacters' :=
        VisitEntry(timelineMap', cumulativeTokens', cumulativeCharacters', time, metricType, entry, event.stamp);
      k := k + 1;
    }
    assert entries[..k] == entries;
  }

  /** `ApplySample` for each of the four kinds, in the shape the loop body updates the state. */
  lemma ApplyInstant(acc: Acc, t: int, s: Sample)
    requires t in acc.buckets
    ensures var p := NormalizeProcessor(s.entry.processor);
      var b := acc.buckets[t];
      && (KindOf(s.kind) == TtfbKind ==>
            ApplySample(acc, t, s) == acc.(buckets := acc.buckets[t := b.(ttfb := b.ttfb[p := s.entry.value])]))
      && (KindOf(s.kind) == ProcessingKind ==>
            ApplySample(acc, t, s) == acc.(buckets := acc.buckets[t := b.(processing := b.processing[p := s.entry.value])]))
  {
  }

  lemma ApplyCumulative(acc: Acc, t: int, s: Sample)
    requires t in acc.buckets
    ensures var p := NormalizeProcessor(s.entry.processor);
      var b := acc.buckets[t];
      && (KindOf(s.kind) == TokensKind ==>
            var c := AddTokens(TokensOf(acc.cumTokens, p), TokenDelta(s.entry));
            ApplySample(acc, t, s) == acc.(cumTokens := acc.cumTokens[p := c], buckets := acc.buckets[t := b.(tokens := b.tokens[p := c])]))
      && (KindOf(s.kind) == CharactersKind ==>
            var c := CharsOf(acc.cumChars, p) + s.entry.value;
            ApplySample(acc, t, s) == acc.(cumChars := acc.cumChars[p := c], buckets := acc.buckets[t := b.(characters := b.characters[p := c])]))
  {
  }

  /** The body of the innermost loop: one entry of kind `metricType` in the bucket at `time`. */
  method VisitEntry(timelineMap: map<int, Bucket>, cumulativeTokens: map<string, Tokens>,
                    cumulativeCharacters: map<string, int>,
                    time: int, metricType: string, entry: MetricEntry, ghost stamp: string)
    returns (timelineMap': map<int, Bucket>, cumulativeTokens': map<string, Tokens>,
             cumulativeCharacters': map<string, int>)
    requires time in timelineMap
    ensures Acc(timelineMap', cumulativeTokens', cumulativeCharacters')
            == ApplySample(Acc(timelineMap, cumulativeTokens, cumulativeCharacters), time, Sample(time, stamp, metricType, entry))
  {
    ghost var acc := Acc(timelineMap, cumulativeTokens, cumulativeCharacters);
    ApplyInstant(acc, time, Sample(time, stamp, metricType, entry));
    ApplyCumulative(acc, time, Sample(time, stamp, metricType, entry));
    timelineMap', cumulativeTokens', cumulativeCharacters' := timelineMap, cumulativeTokens, cumulativeCharacters;
    var processor := NormalizeProcessor(entry.processor);
    var timelineEntry := timelineMap[time];
    if metricType == "ttfb" {
      timelineMap' := timelineMap[time := timelineEntry.(ttfb := timelineEntry.ttfb[processor := entry.value])];
    } else if metricType == "processing" {
      timelineMap' := timelineMap[time := timelineEntry.(processing := timelineEntry.processing[processor := entry.value])];
    } else if metricType == "tokens" {
      timelineMap', cumulativeTokens' := VisitTokens(timelineMap, cumulativeTokens, time, processor, entry);
    } else if metricType == "characters" {
      timelineMap', cumulativeCharacters' := VisitCharacters(timelineMap, cumulativeCharacters, time, processor, entry);
    }
  }

  /** A "tokens" entry: start the processor's counters at zero when it has none, add the
      entry's amounts, and store a copy of the counters in the bucket. */
  method VisitTokens(timelineMap: map<int, Bucket>, cumulativeTokens: map<string, Tokens>,
                     time: int, processor: string, entry: MetricEntry)
    returns (timelineMap': map<int, Bucket>, cumulativeTokens': map<string, Tokens>)
    requires time in timelineMap
    ensures var c := AddTokens(TokensOf(cumulativeTokens, processor), TokenDelta(entry));
      && cumulativeTokens' == cumulativeTokens[processor := c]
      && timelineMap' == timelineMap[time := timelineMap[time].(tokens := timelineMap[time].tokens[processor := c])]
  {
    cumulativeTokens' := cumulativeTokens;
    if processor !in cumulativeTokens' {
      cumulativeTokens' := cumulativeTokens'[processor := Tokens(0, 0, 0)];
    }
    var completionTokens := OrZero(entry.completionTokens);
    var promptTokens := OrZero(entry.promptTokens);
    var totalTokens := if entry.totalTokens.Some? && entry.totalTokens.value != 0
                       then entry.totalTokens.value else entry.value;
    var c := cumulativeTokens'[processor];
    cumulativeTokens' := cumulativeTokens'[processor :=
      Tokens(c.completion + completionTokens, c.prompt + promptTokens, c.total + totalTokens)];
    var timelineEntry := timelineMap[time];
    timelineMap' := timelineMap[time := timelineEntry.(tokens := timelineEntry.tokens[processor := cumulativeTokens'[processor]])];
  }

  /** A "characters" entry: a missing or zero counter restarts at zero, the entry's value
      is added, and the new total is stored in the bucket. */
  method VisitCharacters(timelineMap: map<int, Bucket>, cumulativeCharacters: map<string, int>,
                         time: int, processor: string, entry: MetricEntry)
    returns (timelineMap': map<int, Bucket>, cumulativeCharacters': map<string, int>)
    requires time in timelineMap
    ensures var c := CharsOf(cumulativeCharacters, processor) + entry.value;
      && cumulativeCharacters' == cumulativeCharacters[processor := c]
      && timelineMap' == timelineMap[time := timelineMap[time].(characters := timelineMap[time].characters[processor := c])]
  {
    cumulativeCharacters' := cumulativeCharacters;
    if processor !in cumulativeCharacters' || cumulativeCharacters'[processor] == 0 {
      cumulativeCharacters' := cumulativeCharacters'[processor := 0];
    }
    cumulativeCharacters' := cumulativeCharacters'[processor := cumulativeCharacters'[processor] + entry.value];
    var timelineEntry := timelineMap[time];
    timelineMap' := timelineMap[time := timelineEntry.(characters := timelineEntry.characters[processor := cumulativeCharacters'[processor]])];
  }
}

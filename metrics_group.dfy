/**
 * aggregateMetrics (MetricsSection.tsx): the raw metrics grouped as
 * `metricKind -> processor -> entries`, every entry tagged with the ISO
 * stamp of the event that carried it.
 */
module MetricsGroup {
  import opened MetricTypes
  import opened SeqFacts

  /** A stored entry: the original entry, unchanged, plus `_receivedAt`. */
  datatype Received = Received(entry: MetricEntry, receivedAt: string)

  /** `metricKind -> processor -> entries`. */
  type Aggregated = map<string, map<string, seq<Received>>>

  // ---------------------------------------------------------------------
  // The fold the three loops compute
  // ---------------------------------------------------------------------

  /** The list stored for `kind` and `p`, the empty list where there is none. */
  function Stored(agg: Aggregated, kind: string, p: string): seq<Received>
  {
    if kind in agg && p in agg[kind] then agg[kind][p] else []
  }

  /** No processor key holds an empty list. */
  predicate NoEmptyList(agg: Aggregated)
  {
    forall k, p | k in agg && p in agg[k] :: agg[k][p] != []
  }

  /** `agg[kind] ??= {}`: a kind key is created on first sight and kept afterwards. */
  function OpenKind(agg: Aggregated, kind: string): (r: Aggregated)
    ensures r.Keys == agg.Keys + {kind}
    ensures forall k, p :: Stored(r, k, p) == Stored(agg, k, p)
    ensures NoEmptyList(agg) ==> NoEmptyList(r)
  {
    if kind in agg then agg else agg[kind := map[]]
  }

  /** `agg[kind][p] ??= []` followed by `push(r)`. */
  function Push(agg: Aggregated, kind: string, p: string, r: Received): (agg': Aggregated)
    requires kind in agg
    ensures agg'.Keys == agg.Keys
    ensures forall k, q :: Stored(agg', k, q) == if k == kind && q == p then Stored(agg, k, q) + [r] else Stored(agg, k, q)
    ensures NoEmptyList(agg) ==> NoEmptyList(agg')
  {
    agg[kind := agg[kind][p := Stored(agg, kind, p) + [r]]]
  }

  /** The entries `es` of one array, pushed in index order under their processors. */
  function PushEntries(agg: Aggregated, kind: string, stamp: string, es: seq<MetricEntry>): (r: Aggregated)
    requires kind in agg
    ensures r.Keys == agg.Keys
    ensures NoEmptyList(agg) ==> NoEmptyList(r)
  {
    if es == [] then agg
    else
      var e := es[|es| - 1];
      Push(PushEntries(agg, kind, stamp, es[..|es| - 1]), kind, NormalizeProcessor(e.processor), Received(e, stamp))
  }

  /** One data key of `ev`: skipped unless its value is an array. */
  function AddField(agg: Aggregated, ev: MetricsEvent, f: Field): (r: Aggregated)
    ensures NoEmptyList(agg) ==> NoEmptyList(r)
  {
    match f.value
    case NotArray => agg
    case Entries(es) => PushEntries(OpenKind(agg, f.kind), f.kind, ev.stamp, es)
  }

  /** The data keys `fs` of `ev`, in key order. */
  function AddFields(agg: Aggregated, ev: MetricsEvent, fs: seq<Field>): (r: Aggregated)
    ensures NoEmptyList(agg) ==> NoEmptyList(r)
  {
    if fs == [] then agg else AddField(AddFields(agg, ev, fs[..|fs| - 1]), ev, fs[|fs| - 1])
  }

  /** aggregateMetrics as a function of its input. */
  function Aggregate(evs: seq<MetricsEvent>): (r: Aggregated)
    ensures NoEmptyList(r)
  {
    if evs == [] then map[] else
      var ev := evs[|evs| - 1];
      AddFields(Aggregate(evs[..|evs| - 1]), ev, ev.data)
  }

  // ---------------------------------------------------------------------
  // The method
  // ---------------------------------------------------------------------

  /** aggregateMetrics: events in order, data keys in key order, entries in index order. */
  method AggregateMetrics(events: seq<MetricsEvent>) returns (agg: Aggregated)
    ensures agg == Aggregate(events)
  {
    agg := map[];
    for i := 0 to |events|
      invariant agg == Aggregate(events[..i])
    {
      var evt := events[i];
      assert events[..i + 1][..i] == events[..i];
      ghost var before := agg;
      for j := 0 to |evt.data|
        invariant agg == AddFields(before, evt, evt.data[..j])
      {
        var metricType := evt.data[j].kind;
        assert evt.data[..j + 1][..j] == evt.data[..j];
        match evt.data[j].value {
          case NotArray =>
          case Entries(value) =>
            if metricType !in agg {
              agg := agg[metricType := map[]];
            }
            agg := GroupArray(agg, metricType, evt.stamp, value);
        }
      }
      assert evt.data[..|evt.data|] == evt.data;
    }
    assert events[..|events|] == events;
  }

  /** The body of the innermost loop: one entry, tagged with `stamp`, appended to the
      list of its processor under `metricType`. */
  method StoreEntry(agg: Aggregated, metricType: string, raw: MetricEntry, stamp: string)
    returns (agg': Aggregated)
    requires metricType in agg
    ensures agg' == Push(agg, metricType, NormalizeProcessor(raw.processor), Received(raw, stamp))
  {
    var processor := NormalizeProcessor(raw.processor);
    agg' := agg;
    if processor !in agg'[metricType] {
      agg' := agg'[metricType := agg'[metricType][processor := []]];
    }
    var augmented := Received(raw, stamp);
    agg' := agg'[metricType := agg'[metricType][processor := agg'[metricType][processor] + [augmented]]];
    assert agg'[metricType] == agg[metricType][processor := Stored(agg, metricType, processor) + [augmented]];
  }

  /** The innermost loop: the entries of one array pushed under their processors. */
  method GroupArray(agg: Aggregated, metricType: string, stamp: string, value: seq<MetricEntry>)
    returns (agg': Aggregated)
    requires metricType in agg
    ensures agg' == PushEntries(agg, metricType, stamp, value)
  {
    agg' := agg;
    for k := 0 to |value|
      invariant metricType in agg'
      invariant agg' == PushEntries(agg, metricType, stamp, value[..k])
    {
      agg' := StoreEntry(agg', metricType, value[k], stamp);
      assert value[..k + 1][..k] == value[..k];
    }
    assert value[..|value|] == value;
  }

  // ---------------------------------------------------------------------
  // Which kind keys exist
  // ---------------------------------------------------------------------

  /** Some event carried an array under `kind`. */
  ghost predicate ArrayCarried(evs: seq<MetricsEvent>, kind: string)
  {
    exists i, j :: 0 <= i < |evs| && 0 <= j < |evs[i].data| && evs[i].data[j].kind == kind && evs[i].data[j].value.Entries?
  }

  lemma {:induction false} FieldsKeys(agg: Aggregated, ev: MetricsEvent, fs: seq<Field>, kind: string)
    ensures kind in AddFields(agg, ev, fs) <==>
      kind in agg || exists j :: 0 <= j < |fs| && fs[j].kind == kind && fs[j].value.Entries?
  {
    if fs != [] {
      var n := |fs| - 1;
      FieldsKeys(agg, ev, fs[..n], kind);
      if exists j :: 0 <= j < n && fs[..n][j].kind == kind && fs[..n][j].value.Entries? {
        var j :| 0 <= j < n && fs[..n][j].kind == kind && fs[..n][j].value.Entries?;
        assert fs[j] == fs[..n][j];
      }
      if exists j :: 0 <= j < |fs| && fs[j].kind == kind && fs[j].value.Entries? {
        var j :| 0 <= j < |fs| && fs[j].kind == kind && fs[j].value.Entries?;
        if j < n {
          assert fs[..n][j] == fs[j];
        }
      }
    }
  }

  /** A kind key exists exactly when some event carried an array under that kind; a
      value that is not an array creates no key. */
  lemma {:induction false} KindKeys(evs: seq<MetricsEvent>, kind: string)
    ensures kind in Aggregate(evs) <==> ArrayCarried(evs, kind)
  {
    if evs != [] {
      var n := |evs| - 1;
      var ev := evs[n];
      KindKeys(evs[..n], kind);
      FieldsKeys(Aggregate(evs[..n]), ev, ev.data, kind);
      if ArrayCarried(evs[..n], kind) {
        var i, j :| 0 <= i < n && 0 <= j < |evs[..n][i].data| && evs[..n][i].data[j].kind == kind && evs[..n][i].data[j].value.Entries?;
        assert evs[i] == evs[..n][i];
      }
      if ArrayCarried(evs, kind) {
        var i, j :| 0 <= i < |evs| && 0 <= j < |evs[i].data| && evs[i].data[j].kind == kind && evs[i].data[j].value.Entries?;
        if i < n {
          assert evs[..n][i] == evs[i];
          assert ArrayCarried(evs[..n], kind);
        }
      }
    }
  }

  // ---------------------------------------------------------------------
  // What each list holds
  // ---------------------------------------------------------------------

  /** The entries of `ss` under `kind` and processor `p`, in walk order, each tagged
      with the stamp of its event. */
  function Grouped(ss: seq<Sample>, kind: string, p: string): (r: seq<Received>)
  {
    if ss == [] then []
    else
      var s := ss[|ss| - 1];
      Grouped(ss[..|ss| - 1], kind, p)
        + (if s.kind == kind && NormalizeProcessor(s.entry.processor) == p then [Received(s.entry, s.stamp)] else [])
  }

  lemma GroupedSnoc(ss: seq<Sample>, s: Sample, kind: string, p: string)
    ensures Grouped(ss + [s], kind, p)
         == Grouped(ss, kind, p) + (if s.kind == kind && NormalizeProcessor(s.entry.processor) == p then [Received(s.entry, s.stamp)] else [])
  {
    assert (ss + [s])[..|ss|] == ss;
  }

  /** Grouping distributes over concatenation. */
  lemma {:induction false} GroupedAppend(xs: seq<Sample>, ys: seq<Sample>, kind: string, p: string)
    ensures Grouped(xs + ys, kind, p) == Grouped(xs, kind, p) + Grouped(ys, kind, p)
  {
    if ys == [] {
      assert xs + ys == xs;
    } else {
      var n := |ys| - 1;
      GroupedAppend(xs, ys[..n], kind, p);
      var last := ys[n];
      AppendDropLast(xs, ys);
      var t := if last.kind == kind && NormalizeProcessor(last.entry.processor) == p then [Received(last.entry, last.stamp)] else [];
      var a, b := Grouped(xs, kind, p), Grouped(ys[..n], kind, p);
      assert Grouped(xs + ys, kind, p) == (a + b) + t;
      assert Grouped(ys, kind, p) == b + t;
      AppendAssoc(a, b, t);
    }
  }

  /** Pushing one array appends, under each kind and processor, that array's entries there. */
  lemma {:induction false} EntriesStored(agg: Aggregated, ev: MetricsEvent, kind: string, es: seq<MetricEntry>, k: string, p: string)
    requires kind in agg
    ensures Stored(PushEntries(agg, kind, ev.stamp, es), k, p) == Stored(agg, k, p) + Grouped(ArraySamples(ev, kind, es), k, p)
  {
    if es == [] {
      assert ArraySamples(ev, kind, es) == [];
    } else {
      var n := |es| - 1;
      EntriesStored(agg, ev, kind, es[..n], k, p);
      var s := Sample(ev.time, ev.stamp, kind, es[n]);
      var front := ArraySamples(ev, kind, es[..n]);
      ArraySamplesSnoc(ev, kind, es, n);
      TakeAll(es);
      GroupedSnoc(front, s, k, p);
      var t := if kind == k && NormalizeProcessor(es[n].processor) == p then [Received(es[n], ev.stamp)] else [];
      AppendAssoc(Stored(agg, k, p), Grouped(front, k, p), t);
    }
  }

  /** Adding the data keys `fs` appends, under each kind and processor, their entries there. */
  lemma {:induction false} FieldsStored(agg: Aggregated, ev: MetricsEvent, fs: seq<Field>, k: string, p: string)
    ensures Stored(AddFields(agg, ev, fs), k, p) == Stored(agg, k, p) + Grouped(FieldsSamples(ev, fs), k, p)
  {
    if fs != [] {
      var n := |fs| - 1;
      FieldsStored(agg, ev, fs[..n], k, p);
      var mid := AddFields(agg, ev, fs[..n]);
      GroupedAppend(FieldsSamples(ev, fs[..n]), FieldSamples(ev, fs[n]), k, p);
      AppendAssoc(Stored(agg, k, p), Grouped(FieldsSamples(ev, fs[..n]), k, p), Grouped(FieldSamples(ev, fs[n]), k, p));
      match fs[n].value {
        case NotArray =>
          AppendEmpty(Stored(mid, k, p));
        case Entries(es) =>
          EntriesStored(OpenKind(mid, fs[n].kind), ev, fs[n].kind, es, k, p);
      }
    }
  }

  lemma {:induction false} AggregateStored(evs: seq<MetricsEvent>, k: string, p: string)
    ensures Stored(Aggregate(evs), k, p) == Grouped(Samples(evs), k, p)
  {
    if evs != [] {
      var n := |evs| - 1;
      AggregateStored(evs[..n], k, p);
      FieldsStored(Aggregate(evs[..n]), evs[n], evs[n].data, k, p);
      GroupedAppend(Samples(evs[..n]), EventSamples(evs[n]), k, p);
    }
  }

  /** Every entry is stored once, under its kind and its normalised processor, as the
      original entry plus its event's stamp; within a list the order is event order
      and then array order. A processor key exists exactly when it has entries. */
  lemma GroupedLists(evs: seq<MetricsEvent>, kind: string, p: string)
    ensures Stored(Aggregate(evs), kind, p) == Grouped(Samples(evs), kind, p)
    ensures kind in Aggregate(evs) ==> (p in Aggregate(evs)[kind] <==> Grouped(Samples(evs), kind, p) != [])
  {
    AggregateStored(evs, kind, p);
  }

  /** An array that is empty, or whose kind never receives an entry, still leaves its
      kind key, with no processor under it. */
  lemma EmptyKind(evs: seq<MetricsEvent>, kind: string)
    requires ArrayCarried(evs, kind)
    requires forall i :: 0 <= i < |Samples(evs)| ==> Samples(evs)[i].kind != kind
    ensures kind in Aggregate(evs) && Aggregate(evs)[kind] == map[]
  {
    KindKeys(evs, kind);
    forall p | p in Aggregate(evs)[kind]
      ensures false
    {
      AggregateStored(evs, kind, p);
      NoEntriesOfKind(Samples(evs), kind, p);
    }
  }

  lemma {:induction false} NoEntriesOfKind(ss: seq<Sample>, kind: string, p: string)
    requires forall i :: 0 <= i < |ss| ==> ss[i].kind != kind
    ensures Grouped(ss, kind, p) == []
  {
    if ss != [] {
      var n := |ss| - 1;
      assert forall i :: 0 <= i < n ==> ss[..n][i] == ss[i];
      NoEntriesOfKind(ss[..n], kind, p);
    }
  }

  // ---------------------------------------------------------------------
  // How many entries are stored
  // ---------------------------------------------------------------------

  ghost function PickKey<V>(m: map<string, V>): (k: string)
    requires m != map[]
    ensures k in m
  {
    MapHasKey(m);
    var k :| k in m; k
  }

  /** The sum of the values of `m`. */
  ghost function SumOf(m: map<string, nat>): nat
    decreases |m|
  {
    if m == map[] then 0 else
      var k := PickKey(m);
      m[k] + SumOf(m - {k})
  }

  lemma {:induction false} SumRemove(m: map<string, nat>, k: string)
    requires k in m
    ensures SumOf(m) == m[k] + SumOf(m - {k})
    decreases |m|
  {
    var j := PickKey(m);
    if j != k {
      assert |m - {j}| < |m|;
      SumRemove(m - {j}, k);
      SumRemove(m - {k}, j);
      assert m - {j} - {k} == m - {k} - {j};
    }
  }

  lemma SumUpdate(m: map<string, nat>, k: string, v: nat)
    ensures SumOf(m[k := v]) == SumOf(m) - (if k in m then m[k] else 0) + v
  {
    SumRemove(m[k := v], k);
    assert m[k := v] - {k} == m - {k};
    if k in m {
      SumRemove(m, k);
    } else {
      assert m - {k} == m;
    }
  }

  /** The list lengths of one kind, by processor. */
  ghost function Lengths(pm: map<string, seq<Received>>): map<string, nat>
  {
    map p | p in pm :: |pm[p]|
  }

  /** The number of entries stored under each kind. */
  ghost function KindCounts(agg: Aggregated): map<string, nat>
  {
    map k | k in agg :: SumOf(Lengths(agg[k]))
  }

  /** The number of entries stored in `agg`. */
  ghost function Count(agg: Aggregated): nat
  {
    SumOf(KindCounts(agg))
  }

  lemma OpenKindCount(agg: Aggregated, kind: string)
    ensures Count(OpenKind(agg, kind)) == Count(agg)
  {
    if kind !in agg {
      assert Lengths(map[]) == map[];
      assert KindCounts(agg[kind := map[]]) == KindCounts(agg)[kind := 0];
      SumUpdate(KindCounts(agg), kind, 0);
    }
  }

  lemma PushCount(agg: Aggregated, kind: string, p: string, r: Received)
    requires kind in agg
    ensures Count(Push(agg, kind, p, r)) == Count(agg) + 1
  {
    var pm := agg[kind];
    var l := Stored(agg, kind, p);
    assert Lengths(pm[p := l + [r]]) == Lengths(pm)[p := |l| + 1];
    SumUpdate(Lengths(pm), p, |l| + 1);
    var n := SumOf(Lengths(pm[p := l + [r]]));
    assert KindCounts(Push(agg, kind, p, r)) == KindCounts(agg)[kind := n];
    SumUpdate(KindCounts(agg), kind, n);
  }

  lemma {:induction false} PushEntriesCount(agg: Aggregated, kind: string, stamp: string, es: seq<MetricEntry>)
    requires kind in agg
    ensures Count(PushEntries(agg, kind, stamp, es)) == Count(agg) + |es|
  {
    if es != [] {
      var n := |es| - 1;
      PushEntriesCount(agg, kind, stamp, es[..n]);
      PushCount(PushEntries(agg, kind, stamp, es[..n]), kind, NormalizeProcessor(es[n].processor), Received(es[n], stamp));
    }
  }

  lemma {:induction false} AddFieldsCount(agg: Aggregated, ev: MetricsEvent, fs: seq<Field>)
    ensures Count(AddFields(agg, ev, fs)) == Count(agg) + FieldsLength(fs)
  {
    if fs != [] {
      var n := |fs| - 1;
      var mid := AddFields(agg, ev, fs[..n]);
      AddFieldsCount(agg, ev, fs[..n]);
      match fs[n].value {
        case NotArray =>
        case Entries(es) =>
          OpenKindCount(mid, fs[n].kind);
          PushEntriesCount(OpenKind(mid, fs[n].kind), fs[n].kind, ev.stamp, es);
      }
    }
  }

  /** The number of stored entries is the sum of the array lengths over all events
      and kinds. */
  lemma {:induction false} AggregateCount(evs: seq<MetricsEvent>)
    ensures Count(Aggregate(evs)) == ArrayLengthSum(evs)
  {
    if evs == [] {
      assert KindCounts(map[]) == map[];
    } else {
      var n := |evs| - 1;
      AggregateCount(evs[..n]);
      AddFieldsCount(Aggregate(evs[..n]), evs[n], evs[n].data);
    }
  }
}

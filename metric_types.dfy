/**
 * Shapes shared by the two metric consumers of the dashboard: the raw
 * grouper (MetricsSection.tsx) and the timeline builder (TimelineCharts.tsx).
 *
 * A metrics event carries a time in milliseconds, the ISO text of that time,
 * and a bag `metricKind -> value`; a value that is an array holds metric
 * entries `{ processor, value, completion_tokens?, prompt_tokens?,
 * total_tokens? }`. Both consumers walk the bag in key order and each array
 * in index order; `Samples` flattens exactly that walk.
 */
module MetricTypes {

  datatype Option<T> = None | Some(value: T)

  /** `m[k]` read as an optional value: `None` plays JavaScript's `undefined`. */
  function Get<K, V>(m: map<K, V>, k: K): (r: Option<V>)
    ensures r.Some? <==> k in m
    ensures r.Some? ==> r.value == m[k]
  {
    if k in m then Some(m[k]) else None
  }

  /** JavaScript's `x || 0` on an optional number: missing and 0 both give 0. */
  function OrZero(x: Option<int>): (r: int)
    ensures x.Some? ==> r == x.value
    ensures x.None? ==> r == 0
  {
    match x
    case Some(v) => v
    case None => 0
  }

  /** The `processor` field of an entry: a string, or anything else (missing, a number, null). */
  datatype ProcessorField = StrName(name: string) | NonString

  /** One metric entry. Token fields are optional; `value` is always a number. */
  datatype MetricEntry = MetricEntry(
    processor: ProcessorField,
    value: int,
    completionTokens: Option<int>,
    promptTokens: Option<int>,
    totalTokens: Option<int>)

  /** The value under one metric kind: an array of entries, or something that is not an array. */
  datatype KindValue = Entries(entries: seq<MetricEntry>) | NotArray

  /** One own key of the event's data bag, in `Object.keys` order. */
  datatype Field = Field(kind: string, value: KindValue)

  /** A metrics event: `timestamp.getTime()`, `timestamp.toISOString()` and the data bag. */
  datatype MetricsEvent = MetricsEvent(time: int, stamp: string, data: seq<Field>)

  /** The kinds the timeline charts read; every other key of the bag is skipped there. */
  datatype MetricKind = TtfbKind | ProcessingKind | TokensKind | CharactersKind | OtherKind

  function KindOf(name: string): MetricKind
  {
    if name == "ttfb" then TtfbKind
    else if name == "processing" then ProcessingKind
    else if name == "tokens" then TokensKind
    else if name == "characters" then CharactersKind
    else OtherKind
  }

  /** One array entry met during the walk, with the event it came from. */
  datatype Sample = Sample(time: int, stamp: string, kind: string, entry: MetricEntry)

  // ---------------------------------------------------------------------
  // String.prototype.trim
  // ---------------------------------------------------------------------

  /** ECMAScript WhiteSpace and LineTerminator code points, the set `trim` removes. */
  predicate IsJsWhitespace(c: char)
  {
    // tab, vertical tab, form feed, space, no-break space, byte order mark
    || c == '\U{9}' || c == '\U{B}' || c == '\U{C}' || c == ' '
    || c == '\U{A0}' || c == '\U{FEFF}'
    // the other space separators
    || c == '\U{1680}' || ('\U{2000}' <= c <= '\U{200A}') || c == '\U{202F}'
    || c == '\U{205F}' || c == '\U{3000}'
    // line terminators
    || c == '\U{A}' || c == '\U{D}' || c == '\U{2028}' || c == '\U{2029}'
  }

  predicate AllWhitespace(s: string)
  {
    forall i :: 0 <= i < |s| ==> IsJsWhitespace(s[i])
  }

  /** The first index at or after `i` that does not hold whitespace, or `|s|`. */
  function SkipLeading(s: string, i: nat): (j: nat)
    requires i <= |s|
    ensures i <= j <= |s|
    ensures forall k :: i <= k < j ==> IsJsWhitespace(s[k])
    ensures j < |s| ==> !IsJsWhitespace(s[j])
    decreases |s| - i
  {
    if i < |s| && IsJsWhitespace(s[i]) then SkipLeading(s, i + 1) else i
  }

  /** The end of `s[lo..j]` once its trailing whitespace is dropped. */
  function SkipTrailing(s: string, lo: nat, j: nat): (e: nat)
    requires lo <= j <= |s|
    ensures lo <= e <= j
    ensures forall k :: e <= k < j ==> IsJsWhitespace(s[k])
    ensures lo < e ==> !IsJsWhitespace(s[e - 1])
    decreases j
  {
    if lo < j && IsJsWhitespace(s[j - 1]) then SkipTrailing(s, lo, j - 1) else j
  }

  /** `s.trim()`: the slice of `s` left once the whitespace at both ends is dropped. */
  function Trim(s: string): string
  {
    var i := SkipLeading(s, 0);
    var j := SkipTrailing(s, i, |s|);
    s[i..j]
  }

  /** The trimmed text is a slice of `s` that neither starts nor ends with whitespace,
      only whitespace lies outside it, and it is empty exactly when `s` is blank. */
  lemma TrimSpec(s: string)
    ensures var r, i := Trim(s), SkipLeading(s, 0);
      && i + |r| <= |s| && r == s[i..i + |r|]
      && (forall k :: 0 <= k < i ==> IsJsWhitespace(s[k]))
      && (forall k :: i + |r| <= k < |s| ==> IsJsWhitespace(s[k]))
      && (r != [] ==> !IsJsWhitespace(r[0]) && !IsJsWhitespace(r[|r| - 1]))
      && (r == [] <==> AllWhitespace(s))
  {
    var i := SkipLeading(s, 0);
    var j := SkipTrailing(s, i, |s|);
    assert i == j ==> AllWhitespace(s);
    assert i < |s| ==> s[i..j] != [];
  }

  /**
   * normalizeProcessor: a non-string becomes the bucket "unknown"; a string is
   * trimmed.
   */
  function NormalizeProcessor(name: ProcessorField): string
  {
    match name
    case NonString => "unknown"
    case StrName(s) => Trim(s)
  }

  /** A blank name becomes "", not "unknown": the result is empty exactly for a string
      made of whitespace only. */
  lemma NormalizeBlank(name: ProcessorField)
    ensures NormalizeProcessor(name) == [] <==> name.StrName? && AllWhitespace(name.name)
  {
    if name.StrName? {
      TrimSpec(name.name);
    }
  }

  // ---------------------------------------------------------------------
  // The walk over events, data keys and arrays
  // ---------------------------------------------------------------------

  /** The entries of one array field of `ev`, in index order. */
  function ArraySamples(ev: MetricsEvent, kind: string, es: seq<MetricEntry>): (r: seq<Sample>)
    ensures |r| == |es|
    ensures forall i :: 0 <= i < |es| ==> r[i] == Sample(ev.time, ev.stamp, kind, es[i])
    ensures forall s | s in r :: s.time == ev.time && s.stamp == ev.stamp && s.kind == kind
  {
    seq(|es|, i requires 0 <= i < |es| => Sample(ev.time, ev.stamp, kind, es[i]))
  }

  lemma ArraySamplesSnoc(ev: MetricsEvent, kind: string, es: seq<MetricEntry>, k: nat)
    requires k < |es|
    ensures ArraySamples(ev, kind, es[..k + 1]) == ArraySamples(ev, kind, es[..k]) + [Sample(ev.time, ev.stamp, kind, es[k])]
  {
  }

  /** The samples one data field contributes: none unless its value is an array. */
  function FieldSamples(ev: MetricsEvent, f: Field): seq<Sample>
  {
    match f.value
    case Entries(es) => ArraySamples(ev, f.kind, es)
    case NotArray => []
  }

  /** The samples of the first `|fs|` data fields, in key order. */
  function FieldsSamples(ev: MetricsEvent, fs: seq<Field>): (r: seq<Sample>)
    ensures forall s | s in r :: s.time == ev.time && s.stamp == ev.stamp
  {
    if fs == [] then [] else FieldsSamples(ev, fs[..|fs| - 1]) + FieldSamples(ev, fs[|fs| - 1])
  }

  /** Every array entry of one event, in the order both consumers visit them. */
  function EventSamples(ev: MetricsEvent): seq<Sample>
  {
    FieldsSamples(ev, ev.data)
  }

  /** Every array entry of a list of events, events in list order. */
  function Samples(evs: seq<MetricsEvent>): seq<Sample>
  {
    if evs == [] then [] else Samples(evs[..|evs| - 1]) + EventSamples(evs[|evs| - 1])
  }

  /** Number of array entries over all events and kinds: the sum of the array lengths. */
  function ArrayLengthSum(evs: seq<MetricsEvent>): nat
  {
    if evs == [] then 0 else ArrayLengthSum(evs[..|evs| - 1]) + FieldsLength(evs[|evs| - 1].data)
  }

  function FieldsLength(fs: seq<Field>): nat
  {
    if fs == [] then 0
    else FieldsLength(fs[..|fs| - 1]) + (match fs[|fs| - 1].value case Entries(es) => |es| case NotArray => 0)
  }

  /** The walk visits each array entry once: its length is the sum of the array lengths. */
  lemma {:induction false} SamplesLength(evs: seq<MetricsEvent>)
    ensures |Samples(evs)| == ArrayLengthSum(evs)
  {
    if evs != [] {
      SamplesLength(evs[..|evs| - 1]);
      var ev := evs[|evs| - 1];
      FieldsSamplesLength(ev, ev.data);
    }
  }

  lemma {:induction false} FieldsSamplesLength(ev: MetricsEvent, fs: seq<Field>)
    ensures |FieldsSamples(ev, fs)| == FieldsLength(fs)
  {
    if fs != [] {
      FieldsSamplesLength(ev, fs[..|fs| - 1]);
    }
  }

  /** Every sample comes from one of the events, at that event's time and stamp. */
  lemma {:induction false} SampleOrigin(evs: seq<MetricsEvent>, s: Sample)
    requires s in Samples(evs)
    ensures exists i :: 0 <= i < |evs| && evs[i].time == s.time && evs[i].stamp == s.stamp
  {
    if evs != [] {
      var n := |evs| - 1;
      if s in Samples(evs[..n]) {
        SampleOrigin(evs[..n], s);
        var i :| 0 <= i < n && evs[..n][i].time == s.time && evs[..n][i].stamp == s.stamp;
        assert evs[i] == evs[..n][i];
      } else {
        assert s in EventSamples(evs[n]);
      }
    }
  }
}

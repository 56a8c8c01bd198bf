/**
 * What the first pass of processMetricsForTimeline leaves in each time bucket,
 * stated against reference definitions over the flattened samples of the input
 * (`MetricTypes.Samples`) rather than against the fold itself:
 *  - TtfbKind and ProcessingKind: the value of the last sample for that processor
 *    at that time;
 *  - CharactersKind: the running sum, in input order, of that processor's values
 *    up to its last sample at that time;
 *  - TokensKind: the three running sums, likewise.
 */
module TimelineBuckets {
  import opened MetricTypes
  import opened TimelineMap

  /** Sample `s` is a reading of kind `kind` for processor `p` at time `t`. */
  predicate Hit(s: Sample, t: int, kind: MetricKind, p: string)
  {
    s.time == t && KindOf(s.kind) == kind && NormalizeProcessor(s.entry.processor) == p
  }

  /** The value of the last reading of `kind` for `p` at time `t`, if any. */
  function LastReading(ss: seq<Sample>, t: int, kind: MetricKind, p: string): Option<int>
  {
    if ss == [] then None
    else if Hit(ss[|ss| - 1], t, kind, p) then Some(ss[|ss| - 1].entry.value)
    else LastReading(ss[..|ss| - 1], t, kind, p)
  }

  /** Sum of all CharactersKind values of processor `p` in `ss`, at any time. */
  function CharTotal(ss: seq<Sample>, p: string): int
  {
    if ss == [] then 0
    else
      var s := ss[|ss| - 1];
      CharTotal(ss[..|ss| - 1], p)
      + (if KindOf(s.kind) == CharactersKind && NormalizeProcessor(s.entry.processor) == p then s.entry.value else 0)
  }

  /** The running CharactersKind sum of `p` just after its last reading at time `t`, if any. */
  function CharsAt(ss: seq<Sample>, t: int, p: string): Option<int>
  {
    if ss == [] then None
    else if Hit(ss[|ss| - 1], t, CharactersKind, p) then Some(CharTotal(ss, p))
    else CharsAt(ss[..|ss| - 1], t, p)
  }

  /** Sum of the token amounts of all TokensKind readings of processor `p` in `ss`. */
  function TokenTotal(ss: seq<Sample>, p: string): Tokens
  {
    if ss == [] then NoTokens
    else
      var s := ss[|ss| - 1];
      var prev := TokenTotal(ss[..|ss| - 1], p);
      if KindOf(s.kind) == TokensKind && NormalizeProcessor(s.entry.processor) == p
      then AddTokens(prev, TokenDelta(s.entry)) else prev
  }

  /** The running token sums of `p` just after its last reading at time `t`, if any. */
  function TokensAt(ss: seq<Sample>, t: int, p: string): Option<Tokens>
  {
    if ss == [] then None
    else if Hit(ss[|ss| - 1], t, TokensKind, p) then Some(TokenTotal(ss, p))
    else TokensAt(ss[..|ss| - 1], t, p)
  }

  /** The first stamp seen for time `t`: the stamp of the first event at that time. */
  function FirstStamp(evs: seq<MetricsEvent>, t: int): Option<string>
  {
    if evs == [] then None
    else
      var prev := FirstStamp(evs[..|evs| - 1], t);
      if prev.Some? then prev
      else if evs[|evs| - 1].time == t then Some(evs[|evs| - 1].stamp)
      else None
  }

  // ---------------------------------------------------------------------
  // The invariant the fold keeps
  // ---------------------------------------------------------------------

  ghost predicate Covers(acc: Acc, ss: seq<Sample>)
  {
    forall s | s in ss :: s.time in acc.buckets
  }

  ghost predicate InstantTracked(acc: Acc, ss: seq<Sample>)
  {
    forall t, p | t in acc.buckets ::
      && Get(acc.buckets[t].ttfb, p) == LastReading(ss, t, TtfbKind, p)
      && Get(acc.buckets[t].processing, p) == LastReading(ss, t, ProcessingKind, p)
  }

  ghost predicate CountersTracked(acc: Acc, ss: seq<Sample>)
  {
    forall p :: CharsOf(acc.cumChars, p) == CharTotal(ss, p) && TokensOf(acc.cumTokens, p) == TokenTotal(ss, p)
  }

  ghost predicate CumulativeTracked(acc: Acc, ss: seq<Sample>)
  {
    forall t, p | t in acc.buckets ::
      && Get(acc.buckets[t].characters, p) == CharsAt(ss, t, p)
      && Get(acc.buckets[t].tokens, p) == TokensAt(ss, t, p)
  }

  ghost predicate Tracked(acc: Acc, ss: seq<Sample>)
  {
    Covers(acc, ss) && InstantTracked(acc, ss) && CountersTracked(acc, ss) && CumulativeTracked(acc, ss)
  }

  /** No sample at time `t`: no reading of any kind at `t`. */
  lemma {:induction false} NoneAtAbsentTime(ss: seq<Sample>, t: int, p: string)
    requires forall s | s in ss :: s.time != t
    ensures LastReading(ss, t, TtfbKind, p).None? && LastReading(ss, t, ProcessingKind, p).None?
    ensures CharsAt(ss, t, p).None? && TokensAt(ss, t, p).None?
  {
    if ss != [] {
      NoneAtAbsentTime(ss[..|ss| - 1], t, p);
    }
  }

  /** Creating the (empty) bucket of a new time keeps the invariant. */
  lemma OpenTracked(acc: Acc, ss: seq<Sample>, ev: MetricsEvent)
    requires Tracked(acc, ss)
    ensures Tracked(OpenBucket(acc, ev), ss)
  {
    if ev.time !in acc.buckets {
      var r := OpenBucket(acc, ev);
      forall t, p | t in r.buckets
        ensures Get(r.buckets[t].ttfb, p) == LastReading(ss, t, TtfbKind, p)
        ensures Get(r.buckets[t].processing, p) == LastReading(ss, t, ProcessingKind, p)
        ensures Get(r.buckets[t].characters, p) == CharsAt(ss, t, p)
        ensures Get(r.buckets[t].tokens, p) == TokensAt(ss, t, p)
      {
        if t == ev.time {
          NoneAtAbsentTime(ss, t, p);
        }
      }
    }
  }

  /** The reference definitions, one sample further. */
  lemma SnocInstant(ss: seq<Sample>, s: Sample, t: int, p: string)
    ensures LastReading(ss + [s], t, TtfbKind, p)
            == if Hit(s, t, TtfbKind, p) then Some(s.entry.value) else LastReading(ss, t, TtfbKind, p)
    ensures LastReading(ss + [s], t, ProcessingKind, p)
            == if Hit(s, t, ProcessingKind, p) then Some(s.entry.value) else LastReading(ss, t, ProcessingKind, p)
  {
    assert (ss + [s])[..|ss|] == ss;
  }

  lemma SnocCharacters(ss: seq<Sample>, s: Sample, t: int, p: string)
    ensures CharTotal(ss + [s], p)
            == CharTotal(ss, p) + (if KindOf(s.kind) == CharactersKind && NormalizeProcessor(s.entry.processor) == p then s.entry.value else 0)
    ensures CharsAt(ss + [s], t, p)
            == if Hit(s, t, CharactersKind, p) then Some(CharTotal(ss + [s], p)) else CharsAt(ss, t, p)
  {
    assert (ss + [s])[..|ss|] == ss;
  }

  lemma SnocTokens(ss: seq<Sample>, s: Sample, t: int, p: string)
    ensures TokenTotal(ss + [s], p)
            == if KindOf(s.kind) == TokensKind && NormalizeProcessor(s.entry.processor) == p
               then AddTokens(TokenTotal(ss, p), TokenDelta(s.entry)) else TokenTotal(ss, p)
    ensures TokensAt(ss + [s], t, p)
            == if Hit(s, t, TokensKind, p) then Some(TokenTotal(ss + [s], p)) else TokensAt(ss, t, p)
  {
    assert (ss + [s])[..|ss|] == ss;
  }

  /** One more sample keeps the invariant. */
  lemma StepTracked(acc: Acc, ss: seq<Sample>, s: Sample)
    requires Tracked(acc, ss) && s.time in acc.buckets
    ensures Tracked(ApplySample(acc, s.time, s), ss + [s])
  {
    StepCounters(acc, ss, s);
    StepInstant(acc, ss, s);
    StepCharacters(acc, ss, s);
    StepTokens(acc, ss, s);
  }

  lemma StepCounters(acc: Acc, ss: seq<Sample>, s: Sample)
    requires CountersTracked(acc, ss) && s.time in acc.buckets
    ensures CountersTracked(ApplySample(acc, s.time, s), ss + [s])
  {
    var r := ApplySample(acc, s.time, s);
    forall p ensures CharsOf(r.cumChars, p) == CharTotal(ss + [s], p) && TokensOf(r.cumTokens, p) == TokenTotal(ss + [s], p) {
      SnocCharacters(ss, s, s.time, p);
      SnocTokens(ss, s, s.time, p);
      assert CharsOf(acc.cumChars, p) == CharTotal(ss, p);
      assert TokensOf(acc.cumTokens, p) == TokenTotal(ss, p);
    }
  }

  lemma StepInstant(acc: Acc, ss: seq<Sample>, s: Sample)
    requires InstantTracked(acc, ss) && s.time in acc.buckets
    ensures InstantTracked(ApplySample(acc, s.time, s), ss + [s])
  {
    var r := ApplySample(acc, s.time, s);
    forall t, p | t in r.buckets
      ensures Get(r.buckets[t].ttfb, p) == LastReading(ss + [s], t, TtfbKind, p)
      ensures Get(r.buckets[t].processing, p) == LastReading(ss + [s], t, ProcessingKind, p)
    {
      SnocInstant(ss, s, t, p);
      assert Get(acc.buckets[t].ttfb, p) == LastReading(ss, t, TtfbKind, p);
      assert Get(acc.buckets[t].processing, p) == LastReading(ss, t, ProcessingKind, p);
    }
  }

  lemma StepCharacters(acc: Acc, ss: seq<Sample>, s: Sample)
    requires CumulativeTracked(acc, ss) && CountersTracked(acc, ss) && s.time in acc.buckets
    ensures forall t, p | t in acc.buckets ::
      Get(ApplySample(acc, s.time, s).buckets[t].characters, p) == CharsAt(ss + [s], t, p)
  {
    var r := ApplySample(acc, s.time, s);
    forall t, p | t in acc.buckets
      ensures Get(r.buckets[t].characters, p) == CharsAt(ss + [s], t, p)
    {
      SnocCharacters(ss, s, t, p);
      assert Get(acc.buckets[t].characters, p) == CharsAt(ss, t, p);
      assert CharsOf(acc.cumChars, p) == CharTotal(ss, p);
    }
  }

  lemma StepTokens(acc: Acc, ss: seq<Sample>, s: Sample)
    requires CumulativeTracked(acc, ss) && CountersTracked(acc, ss) && s.time in acc.buckets
    ensures forall t, p | t in acc.buckets ::
      Get(ApplySample(acc, s.time, s).buckets[t].tokens, p) == TokensAt(ss + [s], t, p)
  {
    var r := ApplySample(acc, s.time, s);
    forall t, p | t in acc.buckets
      ensures Get(r.buckets[t].tokens, p) == TokensAt(ss + [s], t, p)
    {
      SnocTokens(ss, s, t, p);
      assert Get(acc.buckets[t].tokens, p) == TokensAt(ss, t, p);
      assert TokensOf(acc.cumTokens, p) == TokenTotal(ss, p);
    }
  }

  /** The samples of one event, all at time `t`, keep the invariant. */
  lemma {:induction false} SamplesTracked(acc: Acc, ss: seq<Sample>, t: int, xs: seq<Sample>)
    requires Tracked(acc, ss) && t in acc.buckets
    requires forall x | x in xs :: x.time == t
    ensures Tracked(ApplySamples(acc, t, xs), ss + xs)
  {
    if xs == [] {
      assert ss + xs == ss;
    } else {
      var n := |xs| - 1;
      SamplesTracked(acc, ss, t, xs[..n]);
      assert xs[n] in xs;
      StepTracked(ApplySamples(acc, t, xs[..n]), ss + xs[..n], xs[n]);
      assert ss + xs[..n] + [xs[n]] == ss + xs;
    }
  }

  /** The first pass keeps the invariant against the samples of all events. */
  lemma {:induction false} FirstPassTracked(evs: seq<MetricsEvent>)
    ensures Tracked(FirstPass(evs), Samples(evs))
  {
    if evs != [] {
      var n := |evs| - 1;
      FirstPassTracked(evs[..n]);
      OpenTracked(FirstPass(evs[..n]), Samples(evs[..n]), evs[n]);
      SamplesTracked(OpenBucket(FirstPass(evs[..n]), evs[n]), Samples(evs[..n]), evs[n].time, EventSamples(evs[n]));
    }
  }

  // ---------------------------------------------------------------------
  // What each bucket holds
  // ---------------------------------------------------------------------

  /**
   * Events with identical timestamps are merged: there is exactly one bucket per
   * distinct event time, keyed by that time, stamped by the first event at it.
   */
  lemma {:induction false} BucketPerTime(evs: seq<MetricsEvent>, t: int)
    ensures t in FirstPass(evs).buckets <==> FirstStamp(evs, t).Some?
    ensures t in FirstPass(evs).buckets ==>
      FirstPass(evs).buckets[t].time == t && FirstPass(evs).buckets[t].stamp == FirstStamp(evs, t).value
  {
    if evs != [] {
      var n := |evs| - 1;
      BucketPerTime(evs[..n], t);
      assert FirstPass(evs) == ApplyEvent(FirstPass(evs[..n]), evs[n]);
    }
  }

  /** A time is a bucket key exactly when some event has that time. */
  lemma {:induction false} FirstStampSome(evs: seq<MetricsEvent>, t: int)
    ensures FirstStamp(evs, t).Some? <==> exists i :: 0 <= i < |evs| && evs[i].time == t
  {
    if evs != [] {
      var n := |evs| - 1;
      FirstStampSome(evs[..n], t);
      if FirstStamp(evs[..n], t).Some? {
        var i :| 0 <= i < n && evs[..n][i].time == t;
        assert evs[i].time == t;
      }
      if exists i :: 0 <= i < |evs| && evs[i].time == t {
        var i :| 0 <= i < |evs| && evs[i].time == t;
        if i < n {
          assert evs[..n][i].time == t;
        }
      }
    }
  }

  /**
   * TtfbKind and ProcessingKind: a processor has a reading in the bucket at `t` exactly
   * when some sample of that kind for it has time `t`, and the reading is the value
   * of the last such sample in input order.
   */
  lemma InstantBucket(evs: seq<MetricsEvent>, t: int, p: string)
    requires t in FirstPass(evs).buckets
    ensures Get(FirstPass(evs).buckets[t].ttfb, p) == LastReading(Samples(evs), t, TtfbKind, p)
    ensures Get(FirstPass(evs).buckets[t].processing, p) == LastReading(Samples(evs), t, ProcessingKind, p)
  {
    FirstPassTracked(evs);
  }

  /**
   * CharactersKind and TokensKind: the bucket at `t` holds, for each processor with a
   * reading there, its running sums just after its last reading at `t`; the stored
   * token counters are a copy, so later readings do not change them.
   */
  lemma CumulativeBucket(evs: seq<MetricsEvent>, t: int, p: string)
    requires t in FirstPass(evs).buckets
    ensures Get(FirstPass(evs).buckets[t].characters, p) == CharsAt(Samples(evs), t, p)
    ensures Get(FirstPass(evs).buckets[t].tokens, p) == TokensAt(Samples(evs), t, p)
  {
    FirstPassTracked(evs);
  }

  /** The running counters after the first pass are the sums over all readings. */
  lemma RunningCounters(evs: seq<MetricsEvent>, p: string)
    ensures CharsOf(FirstPass(evs).cumChars, p) == CharTotal(Samples(evs), p)
    ensures TokensOf(FirstPass(evs).cumTokens, p) == TokenTotal(Samples(evs), p)
  {
    FirstPassTracked(evs);
  }
}

/**
 * The chart points as the source builds them: one flat object per point,
 * `{ timestamp, time }` first and then one key per processor of the chart.
 * A processor whose normalised name is "timestamp" or "time" therefore
 * writes over the point's own fields. The rest of the model keeps the
 * readings apart from the time fields (`TimelineSeries.Point`); this module
 * shows what the flat object does instead.
 */
module FlatPoints {
  import opened MetricTypes
  import opened TimelineMap
  import opened TimelineSeries

  /** A field value of the flat point object. */
  datatype JsValue = JsString(s: string) | JsNumber(n: int) | JsNull

  /** `readings[p] ?? null` as a field value. */
  function Cell(readings: map<string, int>, p: string): (v: JsValue)
    ensures v.JsNull? <==> p !in readings
    ensures p in readings ==> v == JsNumber(readings[p])
  {
    if p in readings then JsNumber(readings[p]) else JsNull
  }

  /** The flat point of a null-filled chart: the time fields, then every processor of
      `procs`; the processor fields are written last, so they win a clash. */
  function FlatPoint(b: Bucket, c: Chart, procs: set<string>): (r: map<string, JsValue>)
    ensures r.Keys == procs + {"timestamp", "time"}
    ensures forall p | p in procs :: r[p] == Cell(Readings(b, c), p)
    ensures "timestamp" !in procs ==> r["timestamp"] == JsString(b.stamp)
    ensures "time" !in procs ==> r["time"] == JsNumber(b.time)
  {
    map k | k in procs + {"timestamp", "time"} ::
      if k in procs then Cell(Readings(b, c), k)
      else if k == "timestamp" then JsString(b.stamp)
      else JsNumber(b.time)
  }

  /** A processor named "timestamp" replaces the stamp the chart's axis reads with a
      number or null: the point no longer carries its own stamp. */
  lemma StampOverwritten(b: Bucket, c: Chart, procs: set<string>)
    requires "timestamp" in procs
    ensures FlatPoint(b, c, procs)["timestamp"] != JsString(b.stamp)
    ensures !FlatPoint(b, c, procs)["timestamp"].JsString?
  {
  }

  /** A processor named "time" that has no reading in the bucket turns the point's time
      into null. */
  lemma TimeNulled(b: Bucket, c: Chart, procs: set<string>)
    requires "time" in procs && "time" !in Readings(b, c)
    ensures FlatPoint(b, c, procs)["time"] == JsNull
  {
  }

  /** A concrete clash: a ttfb reading of 120 from a processor named "timestamp". */
  lemma StampClashExample()
    ensures var b := Bucket("2024-01-01T00:00:00.000Z", 1704067200000, map["timestamp" := 120], map[], map[], map[]);
      FlatPoint(b, Ttfb, {"timestamp"})["timestamp"] == JsNumber(120)
  {
    var b := Bucket("2024-01-01T00:00:00.000Z", 1704067200000, map["timestamp" := 120], map[], map[], map[]);
    assert Readings(b, Ttfb) == map["timestamp" := 120];
  }

  /** The structured point keeps the bucket's stamp and time whatever the processors are
      called, and holds exactly the flat object's processor fields: the two agree
      wherever no processor is named "timestamp" or "time". */
  lemma StructuredPointAgrees(b: Bucket, c: Chart, procs: set<string>)
    ensures FilledPoint(b, c, procs).stamp == b.stamp && FilledPoint(b, c, procs).time == b.time
    ensures FilledPoint(b, c, procs).values.Keys == procs
    ensures forall p | p in procs ::
      FlatPoint(b, c, procs)[p] == (match FilledPoint(b, c, procs).values[p]
                                    case Some(v) => JsNumber(v)
                                    case None => JsNull)
    ensures "timestamp" !in procs && "time" !in procs ==>
      FlatPoint(b, c, procs)["timestamp"] == JsString(FilledPoint(b, c, procs).stamp)
      && FlatPoint(b, c, procs)["time"] == JsNumber(FilledPoint(b, c, procs).time)
  {
  }
}

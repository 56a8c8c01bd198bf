# Voice-agent dashboard core, in Dafny

This project models the logic of the voice-agent web front end. That front end
drives a Pipecat voice bot over a WebSocket and charts the metrics the bot sends.
Three parts are modelled:

- **The timeline builder** (`processMetricsForTimeline`, TimelineCharts.tsx).
  - The first pass merges metrics events into one bucket per distinct millisecond time.
  - "ttfb" and "processing" record the last value each processor reports.
  - "tokens" and "characters" record a snapshot of running per-processor counters.
  - The second pass sorts the buckets by time and collects each chart's processors.
  - It then emits one series per chart:
    - ttfb, processing and characters points are null-filled for every processor of the chart;
    - tokens points are sparse, with three fields per processor.
  - `getProcessorColor` picks a line colour from an eight-colour palette.
- **The raw grouper** (`aggregateMetrics`, MetricsSection.tsx).
  - Every array entry is filed under its metric kind and its normalised processor name.
  - Each entry is tagged with the ISO stamp of its event.
- **The session controller** (`VoiceBot`, pipecat.tsx).
  - State: a status string, an `isConnecting` flag and a debug log that keeps the last 50 lines.
  - It is driven by the `connect` and `disconnect` handlers and gated by `canConnect`/`canDisconnect`.

`normalizeProcessor` appears in both metric consumers with the same body. It is modelled once, in `MetricTypes`.

Files:

- `metric_types.dfy` (`MetricTypes`):
  - the event and entry shapes;
  - JavaScript's `trim` and `normalizeProcessor`;
  - `Samples`, the walk over events, data keys and array entries that both consumers share.
- `timeline_map.dfy` (`TimelineMap`):
  - the first pass, as a fold `FirstPass`;
  - the source's nested loops as methods proved equal to it.
- `timeline_buckets.dfy` (`TimelineBuckets`): what each bucket and each running counter holds, stated over the samples alone.
- `timeline_series.dfy` (`TimelineSeries`):
  - the second pass: sorting, processor collection and point emission;
  - methods proved equal to specification functions.
- `timeline_props.dfy` (`TimelineProps`): end-to-end properties of the four series.
- `processor_colors.dfy` (`ProcessorColors`): `getProcessorColor` with JavaScript's `%`.
- `flat_points.dfy` (`FlatPoints`): the flat JavaScript point object and its field clash (see Findings).
- `metrics_group.dfy` (`MetricsGroup`): `aggregateMetrics`, as a method and as a fold, with the lists and counts it yields.
- `session.dfy` (`Session`): the `VoiceBot` class, its log window, its handlers and its guards.
- `seq_facts.dfy` (`SeqFacts`): small generic lemmas about sequences and one about maps.

The model follows the code in two places where a reader might expect otherwise:

- These functions apply no window to the events: every event given is processed.
- A blank processor name normalises to "" and not to "unknown".

## Model

| member | source | states |
|---|---|---|
| MetricTypes.TrimSpec | frontend/src/components/TimelineCharts.tsx:33 | `trim` yields the slice of the name between its leading and trailing whitespace; only whitespace lies outside it; it neither starts nor ends with whitespace; it is empty exactly when the name is blank |
| MetricTypes.NormalizeBlank | frontend/src/components/TimelineCharts.tsx:31-34 | a normalised name is empty exactly when it was a string of whitespace only; non-strings become "unknown", never "" |
| MetricTypes.ArraySamples | frontend/src/components/MetricsSection.tsx:35-44 | the walk of one array visits each entry once, in index order, tagged with its event's time and stamp and the array's kind |
| MetricTypes.SamplesLength | frontend/src/components/MetricsSection.tsx:27-46 | the walk visits exactly as many entries as the arrays hold in total; non-array values contribute none |
| MetricTypes.SampleOrigin | frontend/src/components/TimelineCharts.tsx:54-80 | every visited entry carries the time and stamp of some input event |
| TimelineMap.OpenBucket | frontend/src/components/TimelineCharts.tsx:59-69 | a bucket is created at an event's time only when none exists; existing buckets are untouched |
| TimelineMap.ApplyEvent | frontend/src/components/TimelineCharts.tsx:54-118 | one event adds exactly its own time to the bucket keys and never changes any bucket's time or stamp |
| TimelineMap.ApplySamplesAppend | frontend/src/components/TimelineCharts.tsx:80-117 | visiting two runs of entries in turn is visiting their concatenation |
| TimelineMap.BuildTimelineMap | frontend/src/components/TimelineCharts.tsx:47-119 | the nested loops of the first pass compute the fold `FirstPass` over the events |
| TimelineMap.VisitEvent | frontend/src/components/TimelineCharts.tsx:54-118 | one iteration of the event loop is `ApplyEvent` |
| TimelineMap.VisitArray | frontend/src/components/TimelineCharts.tsx:78-117 | the entry loop applies the array's entries in index order |
| TimelineMap.VisitEntry | frontend/src/components/TimelineCharts.tsx:81-116 | one entry is dispatched on its metric kind as `ApplySample` says; other kinds change nothing |
| TimelineMap.VisitTokens | frontend/src/components/TimelineCharts.tsx:87-104 | the processor's token counters grow by the entry's completion, prompt and total amounts; the bucket stores that new value |
| TimelineMap.VisitCharacters | frontend/src/components/TimelineCharts.tsx:105-116 | the processor's character counter grows by the entry's value; the bucket stores that new value |
| TimelineBuckets.BucketPerTime | frontend/src/components/TimelineCharts.tsx:59-69 | there is a bucket at time t exactly when some event has time t; it carries the stamp of the first such event |
| TimelineBuckets.FirstStampSome | frontend/src/components/TimelineCharts.tsx:56-60 | the first stamp at time t exists exactly when some event has that time |
| TimelineBuckets.NoneAtAbsentTime | frontend/src/components/TimelineCharts.tsx:71-116 | with no entry at time t, no kind has a reading at t |
| TimelineBuckets.SnocInstant | frontend/src/components/TimelineCharts.tsx:83-86 | a later ttfb/processing entry for the same processor and time replaces the earlier reading; other entries leave it |
| TimelineBuckets.SnocCharacters | frontend/src/components/TimelineCharts.tsx:105-116 | each "characters" entry adds its value to its processor's running total; the reading at its time becomes that total |
| TimelineBuckets.SnocTokens | frontend/src/components/TimelineCharts.tsx:87-104 | each "tokens" entry adds its amounts to its processor's running sums; the reading at its time becomes those sums |
| TimelineBuckets.OpenTracked | frontend/src/components/TimelineCharts.tsx:59-69 | opening an empty bucket keeps every bucket and counter in agreement with the entries seen so far |
| TimelineBuckets.StepTracked | frontend/src/components/TimelineCharts.tsx:80-117 | visiting one entry keeps every bucket and counter in agreement with the entries seen so far |
| TimelineBuckets.StepCounters | frontend/src/components/TimelineCharts.tsx:98-112 | after one more entry the running counters are the sums over all entries seen |
| TimelineBuckets.StepInstant | frontend/src/components/TimelineCharts.tsx:83-86 | after one more entry the ttfb and processing readings are the last ones per time and processor |
| TimelineBuckets.StepCharacters | frontend/src/components/TimelineCharts.tsx:105-116 | after one more entry the characters reading at each time is the running total after the last entry there |
| TimelineBuckets.StepTokens | frontend/src/components/TimelineCharts.tsx:87-104 | after one more entry the tokens reading at each time is the running sums after the last entry there |
| TimelineBuckets.SamplesTracked | frontend/src/components/TimelineCharts.tsx:80-117 | the entries of one event keep every bucket and counter in agreement with the entries seen |
| TimelineBuckets.FirstPassTracked | frontend/src/components/TimelineCharts.tsx:53-119 | after the first pass every bucket and counter agrees with the whole walk of entries |
| TimelineBuckets.InstantBucket | frontend/src/components/TimelineCharts.tsx:83-86 | the bucket at time t holds, per processor, the value of the last ttfb/processing entry at t, and no key without one |
| TimelineBuckets.CumulativeBucket | frontend/src/components/TimelineCharts.tsx:87-116 | the bucket at time t holds, per processor, the running characters total and token sums just after its last entry at t |
| TimelineBuckets.RunningCounters | frontend/src/components/TimelineCharts.tsx:47-51 | the final counters are each processor's sums over all its entries |
| TimelineSeries.Min | frontend/src/components/TimelineCharts.tsx:122-123 | the least time of a non-empty set is in the set and below every other |
| TimelineSeries.SortedTimes | frontend/src/components/TimelineCharts.tsx:122-124 | the bucket times sorted ascending: strictly increasing and as many as there are buckets |
| TimelineSeries.SortedTimesComplete | frontend/src/components/TimelineCharts.tsx:122-124 | every bucket time occurs in the sorted order |
| TimelineSeries.SortKeys | frontend/src/components/TimelineCharts.tsx:122-124 | the sort loop yields the ascending order of the times |
| TimelineSeries.Least | frontend/src/components/TimelineCharts.tsx:123 | the selection loop finds the least time of a non-empty set |
| TimelineSeries.ChartProcessors | frontend/src/components/TimelineCharts.tsx:134-140 | a processor is in a chart's set exactly when some bucket has a reading for it on that chart |
| TimelineSeries.TokenProcessors | frontend/src/components/TimelineCharts.tsx:138 | a processor is in the tokens set exactly when some bucket has token sums for it |
| TimelineSeries.ChartPointsSnoc | frontend/src/components/TimelineCharts.tsx:148-200 | each bucket adds one point to a chart exactly when it has a reading for that chart |
| TimelineSeries.TokenPointsSnoc | frontend/src/components/TimelineCharts.tsx:173-187 | each bucket adds one tokens point exactly when it has token sums |
| TimelineSeries.ProcessMetricsForTimeline | frontend/src/components/TimelineCharts.tsx:36-203 | the function's result is the second pass applied to the first pass of its events |
| TimelineSeries.BuildSeries | frontend/src/components/TimelineCharts.tsx:121-202 | sorting, collecting and emitting compute `SecondPass` of the bucket map |
| TimelineSeries.CollectProcessors | frontend/src/components/TimelineCharts.tsx:127-140 | the collection loop yields each chart's set of processors |
| TimelineSeries.EmitSeries | frontend/src/components/TimelineCharts.tsx:142-200 | the emission loop yields each chart's points, in bucket order |
| TimelineSeries.NullFilledPoint | frontend/src/components/TimelineCharts.tsx:150-158 | a ttfb/processing/characters point has one field per processor of the chart, the bucket's reading or null |
| TimelineSeries.TokensPointFor | frontend/src/components/TimelineCharts.tsx:174-186 | a tokens point has fields only for processors with token sums in that bucket |
| TimelineProps.ChartPointsFrom | frontend/src/components/TimelineCharts.tsx:148-200 | every point of a chart is the filled point of a bucket with a reading for it |
| TimelineProps.ChartPointsPrefix | frontend/src/components/TimelineCharts.tsx:148-200 | the points of a prefix of the buckets are a prefix of the points: emission only appends |
| TimelineProps.ChartPointsCover | frontend/src/components/TimelineCharts.tsx:150-158 | every bucket with a reading for a chart gives a point of that chart |
| TimelineProps.ChartPointsIncrease | frontend/src/components/TimelineCharts.tsx:148-200 | buckets in increasing time give points in increasing time |
| TimelineProps.TokenPointsFrom | frontend/src/components/TimelineCharts.tsx:173-187 | every tokens point is the sparse point of a bucket with token sums |
| TimelineProps.TokenPointsPrefix | frontend/src/components/TimelineCharts.tsx:173-187 | tokens points of a prefix of the buckets are a prefix of the tokens points |
| TimelineProps.TokenPointsCover | frontend/src/components/TimelineCharts.tsx:173-187 | every bucket with token sums gives a tokens point |
| TimelineProps.TokenPointsIncrease | frontend/src/components/TimelineCharts.tsx:173-187 | buckets in increasing time give tokens points in increasing time |
| TimelineProps.OrderedBuckets | frontend/src/components/TimelineCharts.tsx:122-124 | the sorted entries list every bucket exactly once, in strictly increasing time |
| TimelineProps.SortedBuckets | frontend/src/components/TimelineCharts.tsx:122-124 | the same, for the buckets of the first pass |
| TimelineProps.LastReadingSome | frontend/src/components/TimelineCharts.tsx:83-86 | a ttfb/processing reading exists exactly when some entry of that kind and processor has that time |
| TimelineProps.CharsAtSome | frontend/src/components/TimelineCharts.tsx:105-116 | a characters reading exists exactly when some entry of that processor has that time |
| TimelineProps.TokensAtSome | frontend/src/components/TimelineCharts.tsx:87-104 | a tokens reading exists exactly when some entry of that processor has that time |
| TimelineProps.HitSomeSnoc | frontend/src/components/TimelineCharts.tsx:80-117 | an entry at time t exists in a longer walk exactly when it exists in the shorter walk or is the new entry |
| TimelineProps.ReadingSome | frontend/src/components/TimelineCharts.tsx:150-199 | a chart's reading for a processor at time t exists exactly when an entry of its kind and processor is at t |
| TimelineProps.BucketReading | frontend/src/components/TimelineCharts.tsx:83-116 | the bucket at t shows, for each chart, exactly the chart's reading at t |
| TimelineProps.FirstPassKeyed | frontend/src/components/TimelineCharts.tsx:60-68 | every bucket is filed under its own time |
| TimelineProps.SampleHasBucket | frontend/src/components/TimelineCharts.tsx:59-71 | every entry's time has a bucket |
| TimelineProps.ReadingsPresent | frontend/src/components/TimelineCharts.tsx:150-190 | a bucket has readings for a chart exactly when some entry of the chart's kind has its time |
| TimelineProps.SeriesIncreasing | frontend/src/components/TimelineCharts.tsx:122-200 | each of the four series is strictly increasing in time: at most one point per time |
| TimelineProps.PointFromBucket | frontend/src/components/TimelineCharts.tsx:150-158 | each point of a chart is the filled point of the bucket filed under its time |
| TimelineProps.BucketGivesPoint | frontend/src/components/TimelineCharts.tsx:150-158 | each bucket with readings for a chart gives a point of that chart |
| TimelineProps.PointHasKind | frontend/src/components/TimelineCharts.tsx:150-199 | every point's time carries an entry of its chart's kind |
| TimelineProps.KindHasReadings | frontend/src/components/TimelineCharts.tsx:83-116 | an entry of a chart's kind at time t leaves readings for that chart in the bucket at t |
| TimelineProps.KindHasPoint | frontend/src/components/TimelineCharts.tsx:150-199 | an entry of a chart's kind at time t puts a point at t on that chart |
| TimelineProps.ChartTimes | frontend/src/components/TimelineCharts.tsx:36-203 | a chart has a point at time t exactly when some entry of its kind has time t |
| TimelineProps.ProcessorsSeen | frontend/src/components/TimelineCharts.tsx:134-140 | a chart's processor set holds exactly the processors with some entry of its kind |
| TimelineProps.CollectedIsSeen | frontend/src/components/TimelineCharts.tsx:134-140 | every collected processor has some entry of the chart's kind |
| TimelineProps.SeenIsCollected | frontend/src/components/TimelineCharts.tsx:134-140 | every processor with an entry of the chart's kind is collected |
| TimelineProps.ReadingCollected | frontend/src/components/TimelineCharts.tsx:134-140 | a processor with a reading in some bucket is in the chart's set |
| TimelineProps.ChartPointValues | frontend/src/components/TimelineCharts.tsx:148-199 | each point carries the first stamp at its time and a field for exactly the processors seen on its chart; the field is the reading at that time, or null |
| TimelineProps.TokenPointFromBucket | frontend/src/components/TimelineCharts.tsx:173-187 | each tokens point is the sparse point of the bucket filed under its time |
| TimelineProps.BucketGivesTokenPoint | frontend/src/components/TimelineCharts.tsx:173-187 | each bucket with token sums gives a tokens point |
| TimelineProps.TokensPresent | frontend/src/components/TimelineCharts.tsx:87-104 | a bucket has token sums exactly when some "tokens" entry has its time |
| TimelineProps.TokenTimes | frontend/src/components/TimelineCharts.tsx:173-187 | the tokens chart has a point at t exactly when some "tokens" entry has time t |
| TimelineProps.TokenPointCounts | frontend/src/components/TimelineCharts.tsx:173-187 | each tokens point carries the first stamp at its time; processors with a "tokens" entry there get their running sums; no other processor gets a field |
| TimelineProps.SamplesFollowEvents | frontend/src/components/TimelineCharts.tsx:54-80 | events in time order give entries in time order |
| TimelineProps.OrderedConcat | frontend/src/components/TimelineCharts.tsx:54-80 | ordered entries followed by one later event's entries stay in time order |
| TimelineProps.CharsAtHit | frontend/src/components/TimelineCharts.tsx:105-116 | a characters reading is the running total just after one of its own entries |
| TimelineProps.EarlierIndex | frontend/src/components/TimelineCharts.tsx:54-80 | in time-ordered entries, an earlier time sits at an earlier index |
| TimelineProps.CharTotalGrows | frontend/src/components/TimelineCharts.tsx:105-116 | with non-negative values, the running characters total never decreases along the walk |
| TimelineProps.CharsAtOrdered | frontend/src/components/TimelineCharts.tsx:105-116 | with ordered input and non-negative values, an earlier characters reading is at most a later one |
| TimelineProps.CharactersNonDecreasing | frontend/src/components/TimelineCharts.tsx:189-199 | with events in time order and non-negative values, a processor's characters line never goes down |
| TimelineProps.TokensAtHit | frontend/src/components/TimelineCharts.tsx:87-104 | a tokens reading is the running sums just after one of its own entries |
| TimelineProps.TokenTotalGrows | frontend/src/components/TimelineCharts.tsx:94-101 | with non-negative entries, none of the three running token sums decreases along the walk |
| TimelineProps.TokensAtOrdered | frontend/src/components/TimelineCharts.tsx:87-104 | with ordered input and non-negative entries, each earlier token count is at most the same count later |
| TimelineProps.TokensNonDecreasing | frontend/src/components/TimelineCharts.tsx:173-187 | with events in time order and non-negative "tokens" entries, a processor's completion, prompt and total lines never go down between points where it appears |
| TimelineProps.SkippedFieldsSamples | frontend/src/components/TimelineCharts.tsx:74-76 | data keys that are not arrays, or not one of the four kinds, yield only entries the timeline ignores |
| TimelineProps.OtherSamplesChangeNothing | frontend/src/components/TimelineCharts.tsx:83-116 | entries of any other kind change neither buckets nor counters |
| TimelineProps.IgnoredEvent | frontend/src/components/TimelineCharts.tsx:59-76 | an event with no chartable array changes no counter and no existing bucket; it opens only an empty bucket at its time |
| TimelineProps.TokenTotalsOfThree | frontend/src/components/TimelineCharts.tsx:94-101 | the running token sums add each entry's completion, prompt and total amounts, in input order |
| TimelineProps.TokensKeepTheirCopy | frontend/src/components/TimelineCharts.tsx:104 | each time keeps the copy of the sums taken at its own entry; later entries do not change earlier points |
| TimelineProps.TokensTenFiveSeven | frontend/src/components/TimelineCharts.tsx:96 | totals 10, 5 and a falsy 0 with value 7 read 10, 15 and 22; completion and prompt, absent, stay 0 |
| ProcessorColors.JsRem | frontend/src/components/TimelineCharts.tsx:222 | JavaScript's `%` by a positive divisor: Dafny's remainder on non-negative operands, and odd in the dividend |
| ProcessorColors.ProcessorColor | frontend/src/components/TimelineCharts.tsx:209-223 | a colour of the palette exactly when the index is non-negative or a multiple of eight (otherwise `undefined`); multiples of eight give the first colour |
| ProcessorColors.PaletteDistinct | frontend/src/components/TimelineCharts.tsx:210-219 | the eight palette colours are pairwise different |
| ProcessorColors.ColorRepeatsEvery8 | frontend/src/components/TimelineCharts.tsx:221-223 | lines eight apart share a colour |
| ProcessorColors.NearbyColorsDiffer | frontend/src/components/TimelineCharts.tsx:221-223 | two lines whose indices differ by less than eight get different colours |
| ProcessorColors.TokenLinesDiffer | frontend/src/components/TimelineCharts.tsx:221-223 | one processor's completion, prompt and total lines (indices 3k, 3k+1, 3k+2) get three different colours |
| FlatPoints.Cell | frontend/src/components/TimelineCharts.tsx:156 | `entry[p] ?? null`: null exactly when the processor has no reading |
| FlatPoints.FlatPoint | frontend/src/components/TimelineCharts.tsx:151-157 | the flat point's keys are the processors plus "timestamp" and "time"; processor fields are written last and win a clash |
| FlatPoints.StampOverwritten | frontend/src/components/TimelineCharts.tsx:151-157 | a processor named "timestamp" replaces the point's stamp with a number or null |
| FlatPoints.TimeNulled | frontend/src/components/TimelineCharts.tsx:151-157 | a processor named "time" with no reading makes the point's time null |
| FlatPoints.StampClashExample | frontend/src/components/TimelineCharts.tsx:151-157 | a ttfb reading of 120 from processor "timestamp" makes the point's timestamp the number 120 |
| FlatPoints.StructuredPointAgrees | frontend/src/components/TimelineCharts.tsx:151-157 | the structured point keeps the bucket's stamp and time for every processor name, and agrees with the flat object when no name clashes |
| MetricsGroup.OpenKind | frontend/src/components/MetricsSection.tsx:33 | a kind key is created on first sight and kept afterwards; no stored list changes |
| MetricsGroup.Push | frontend/src/components/MetricsSection.tsx:37-44 | the entry is appended to exactly one list, the one of its kind and processor; every other list is unchanged |
| MetricsGroup.PushEntries | frontend/src/components/MetricsSection.tsx:35-45 | pushing an array keeps the kind keys and never leaves an empty processor list |
| MetricsGroup.AddFields | frontend/src/components/MetricsSection.tsx:29-46 | adding an event's data keys never leaves an empty processor list |
| MetricsGroup.Aggregate | frontend/src/components/MetricsSection.tsx:23-49 | no processor key of the result holds an empty list |
| MetricsGroup.AggregateMetrics | frontend/src/components/MetricsSection.tsx:23-49 | the three nested loops compute the fold `Aggregate` over the events |
| MetricsGroup.StoreEntry | frontend/src/components/MetricsSection.tsx:36-44 | one entry, tagged with its event's stamp, is pushed under its normalised processor |
| MetricsGroup.GroupArray | frontend/src/components/MetricsSection.tsx:35-45 | the entry loop pushes the array's entries in index order |
| MetricsGroup.FieldsKeys | frontend/src/components/MetricsSection.tsx:29-33 | after an event's data keys, a kind key exists exactly when it existed or the event carried an array under it |
| MetricsGroup.KindKeys | frontend/src/components/MetricsSection.tsx:29-33 | a kind key exists exactly when some event carried an array under it, even an empty one; a non-array value creates none |
| MetricsGroup.GroupedSnoc | frontend/src/components/MetricsSection.tsx:35-44 | one more entry extends only the list of its own kind and processor |
| MetricsGroup.GroupedAppend | frontend/src/components/MetricsSection.tsx:27-47 | grouping distributes over concatenation of walks |
| MetricsGroup.EntriesStored | frontend/src/components/MetricsSection.tsx:35-45 | pushing one array appends that array's entries to each kind and processor list |
| MetricsGroup.FieldsStored | frontend/src/components/MetricsSection.tsx:29-46 | one event's data keys append their entries to each kind and processor list |
| MetricsGroup.AggregateStored | frontend/src/components/MetricsSection.tsx:23-49 | each list holds exactly its kind's entries of that processor, in event order, then key order, then array order, each tagged with its event's stamp |
| MetricsGroup.GroupedLists | frontend/src/components/MetricsSection.tsx:23-49 | the same lists; and a processor key exists under a kind exactly when it has entries |
| MetricsGroup.EmptyKind | frontend/src/components/MetricsSection.tsx:31-33 | a kind seen only with empty arrays keeps its key, with no processor under it |
| MetricsGroup.NoEntriesOfKind | frontend/src/components/MetricsSection.tsx:35-44 | with no entry of a kind, its grouped lists are empty |
| MetricsGroup.OpenKindCount | frontend/src/components/MetricsSection.tsx:33 | opening a kind stores no entry |
| MetricsGroup.PushCount | frontend/src/components/MetricsSection.tsx:44 | each push stores exactly one more entry |
| MetricsGroup.PushEntriesCount | frontend/src/components/MetricsSection.tsx:35-45 | an array stores exactly its length in entries |
| MetricsGroup.AddFieldsCount | frontend/src/components/MetricsSection.tsx:29-46 | an event stores exactly the total length of its arrays |
| MetricsGroup.AggregateCount | frontend/src/components/MetricsSection.tsx:23-49 | nothing is lost or duplicated: the stored entries number the total length of all arrays of all events |
| Session.StatusTextInjective | frontend/src/components/pipecat.tsx:128-130 | the five status strings are distinct, so the guards' string tests are tests of the state |
| Session.Last | frontend/src/components/pipecat.tsx:68 | the last k items, or all of them when there are fewer |
| Session.Appended | frontend/src/components/pipecat.tsx:64-69 | one log line: at most 50 lines, the new one last, preceded by the previous last 49 |
| Session.AppendAllSnoc | frontend/src/components/pipecat.tsx:68 | writing one more line is one more `Appended` |
| Session.AppendAllConcat | frontend/src/components/pipecat.tsx:68 | writing two runs of lines in turn is writing their concatenation |
| Session.AppendAllWindow | frontend/src/components/pipecat.tsx:68 | from a log of at most 50 lines, the log is always the last 50 lines ever written, unreordered and unedited |
| Session.AppendedWindow | frontend/src/components/pipecat.tsx:68 | one more line keeps the window of the last 50 |
| Session.HandlersKeepWindow | frontend/src/components/pipecat.tsx:64-126 | through any handler the log stays within 50 lines and is the last 50 written |
| Session.NatText | frontend/src/components/pipecat.tsx:103 | a non-empty run of decimal digits |
| Session.IntText | frontend/src/components/pipecat.tsx:103 | non-empty; it starts with '-' exactly for a negative number |
| Session.Endpoint | frontend/src/components/pipecat.tsx:95-99 | the configured base, or "ws://localhost:7860" when it is unset or empty, followed by "/ws" |
| Session.ConnectOutcome | frontend/src/components/pipecat.tsx:88-107 | connect ends "Connected" exactly when both awaited calls resolve, and "Error" otherwise |
| Session.DisconnectOutcome | frontend/src/components/pipecat.tsx:116-125 | disconnect ends "Disconnected" exactly when the close resolves, and stays "Disconnecting..." otherwise |
| Session.ConnectCalls | frontend/src/components/pipecat.tsx:92-99 | `initDevices` is always called first; the WebSocket connect to the endpoint is made exactly when it resolved |
| Session.ConnectLines | frontend/src/components/pipecat.tsx:86-106 | connect logs four lines when the devices initialise and three otherwise, "Attempting to connect..." first |
| Session.TryLines | frontend/src/components/pipecat.tsx:88-107 | the try block logs three lines when the devices initialise and two otherwise |
| Session.InitLines | frontend/src/components/pipecat.tsx:92-106 | two lines when the devices initialise (the second once the connect settles), one error line otherwise |
| Session.OpenLines | frontend/src/components/pipecat.tsx:101-106 | one line once the client's connect settles |
| Session.DisconnectLines | frontend/src/components/pipecat.tsx:116-125 | disconnect logs two lines, "Disconnecting..." first |
| Session.CloseLines | frontend/src/components/pipecat.tsx:119-124 | one line once the client's disconnect settles |
| Session.VoiceBot.constructor | frontend/src/components/pipecat.tsx:57-61 | a fresh controller is "Disconnected", not connecting, with an empty log |
| Session.VoiceBot.Log | frontend/src/components/pipecat.tsx:64-69 | the log becomes `Appended` of the stamped line, so it holds at most 50 lines (`Valid`); no other state changes |
| Session.VoiceBot.Connect | frontend/src/components/pipecat.tsx:78-111 | keeps the log within 50 lines (`Valid`); without a client nothing changes; otherwise the status goes "Connecting..." then the outcome; the flag is set and then cleared in every case; the client calls and the log lines are exactly those of the outcome |
| Session.VoiceBot.TryConnect | frontend/src/components/pipecat.tsx:88-107 | the try block and its catch set the outcome status once, make the outcome's calls and log its lines; the flag is untouched |
| Session.VoiceBot.AfterInit | frontend/src/components/pipecat.tsx:92-107 | a rejected `initDevices` logs its message and sets "Error" without calling connect; otherwise connect at the endpoint is called once and settles the status |
| Session.VoiceBot.ConnectToBot | frontend/src/components/pipecat.tsx:94-103 | once the devices are ready, logs "Connecting to bot...", calls the client's connect once at the endpoint, and settles the status with one more line |
| Session.VoiceBot.OpenSession | frontend/src/components/pipecat.tsx:95-107 | the settled connect sets "Connected" or "Error" once and logs one line |
| Session.VoiceBot.Disconnect | frontend/src/components/pipecat.tsx:113-126 | keeps the log within 50 lines (`Valid`); without a client nothing changes; otherwise the status goes "Disconnecting..." and then "Disconnected" only on success; one close call; the two lines are logged; the flag is untouched |
| Session.VoiceBot.TryDisconnect | frontend/src/components/pipecat.tsx:119-125 | the close call, then "Disconnected" only when it resolves; one line logged either way |
| Session.ConnectedEnablesDisconnect | frontend/src/components/pipecat.tsx:128-130 | after a successful connect, disconnect is enabled and connect is not |
| Session.FailuresStrand | frontend/src/components/pipecat.tsx:128-130 | as written, a failed connect ("Error") or a failed disconnect ("Disconnecting...") enables neither button; the stranded states are exactly "Error", "Disconnecting..." and "Connecting..." |
| Session.VoiceBot.DisconnectForced | frontend/src/components/pipecat.tsx:113-126 | corrected: the handler's steps, calls and two log lines, but the status goes "Disconnecting..." then "Disconnected" whichever way the close settles; the controller is never stranded and connect is enabled again whenever no connect is in flight |
| Session.VoiceBot.TryDisconnectForced | frontend/src/components/pipecat.tsx:119-125 | corrected: the close call and one log line, then "Disconnected" on both outcomes |
| Session.NoDeadEndWhenCorrected | frontend/src/components/pipecat.tsx:128-130 | with connect allowed from "Error", every outcome of connect leaves an enabled action; the corrected guard allows everything the original allows |

## Left out

- Rendering, React state batching and re-rendering are not modelled. Each `setState` is applied at once, in program order. The effect that scrolls the log panel is out too.
- The client library (`initDevices`, `connect`, `disconnect`) is not modelled. Each call's outcome is an input (`Outcome`). `console.log`/`console.error` output is not modelled.
- `Date` is not modelled. `new Date().toISOString()` is an input `clock(k)` for the k-th line a handler logs. The elapsed `Date.now() - startTime` is an input number. An event's `getTime()` and `toISOString()` are given as fields of the event.
- The environment variable for the WebSocket base URL is an input `Option<string>`.
- Metric values are integers. Floating-point values, `NaN` and `Infinity` are not modelled.
- Events whose `data` is `null` or `undefined` are not modelled: every event here has a data record. Both consumers call `Object.keys(event.data)`, which would throw on them.
- Array entries that are not objects with a numeric `value` are not modelled: every entry here has one.
  - `null` or `undefined` entries: `aggregateMetrics` would group them under "unknown", and the timeline would throw on reading `entry.processor`.
  - Number, string or boolean entries: both consumers would file them under "unknown" with an undefined `value`, which the timeline records as is and adds into a characters counter as `NaN`.
- Metric kind and processor names that collide with inherited object properties ("constructor", "__proto__") are not modelled. Records are Dafny maps, so every key is an own key.
- Object key order is given: an event's data keys arrive in `Object.keys` order as a sequence. For processor keys, which are sets here, the enumeration order is not modelled.
- Session.VoiceBot.Connect: the catch branch's message is `error.message` of whatever was thrown. The model takes it as the string of the `Fail` outcome.
- The chart components (`TimelineCharts`, `MetricsSection`, the `formatTimestamp` helper, the legend) and the raw JSON view are out of scope. `getProcessorColor` is modelled. The indices the tokens chart passes it (3k, 3k+1 and 3k+2 for the k-th processor, as `ProcessorColors.TokenLinesDiffer` takes them) are assumed, not derived from the components.
- `Pipecat`, the provider component, and the callback bag given to the client are out: they only log to the console.

## Findings

| source | as written | input that shows it | evidently intended | confidence | as-written member | corrected member |
|---|---|---|---|---|---|---|
| frontend/src/components/TimelineCharts.tsx:151-157 | the point object puts `timestamp` and `time` in the same key space as the processor names | a "ttfb" entry `{ processor: "timestamp", value: 120 }`: the point's `timestamp` becomes the number 120 | a point keeps its own stamp and time whatever a processor is called | not executed; low, processor names come from the bot | FlatPoints.StampClashExample | FlatPoints.StructuredPointAgrees |
| frontend/src/components/pipecat.tsx:129 | `canConnect` requires "Disconnected" | `initDevices` or `connect` rejects: the status is "Error", and neither button is enabled again | a connect can be retried after an error | not executed; medium | Session.FailuresStrand | Session.NoDeadEndWhenCorrected |
| frontend/src/components/pipecat.tsx:116-125 | a rejected `disconnect` leaves the status at "Disconnecting..." | `client.disconnect()` rejects: neither button is enabled again | a disconnect ends "Disconnected" (or another state that offers an action) | not executed; medium | Session.FailuresStrand | Session.VoiceBot.DisconnectForced |

The `VoiceBot` class keeps the handlers and guards as written in `Connect`, `Disconnect`
and `CanConnect`. The corrected handler `Session.VoiceBot.DisconnectForced` sits beside
them in the class, and the corrected guard `Session.CanConnectRetrying` beside the
original guard. `DisconnectForced` proves its own half of the intended property: it
never ends stranded. `Session.NoDeadEndWhenCorrected` proves the connect half.

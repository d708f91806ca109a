/**
 * The iterable source that reads a recording from the data platform: it
 * learns the recording's coverage and topics once, narrows its time range to
 * the coverage, keeps one parsed channel per distinct encoding and schema of
 * each topic, and streams messages either in one request or in windows of at
 * most five seconds that skip the gaps between coverage regions.
 *
 * The platform's answers (coverage, topics, the device) and the schema
 * parser are inputs; a stream request is recorded as the `Request` it makes.
 * Times are whole nanoseconds.
 */
module DataPlatform {
  import opened Wrappers
  import opened JsValues
  import opened RosTime

  /** A coverage region of the recording, its RFC 3339 times parsed. */
  datatype Region = Region(start: nat, end: nat, deviceId: string)

  /** A topic as the platform lists it; the schema may be missing. */
  datatype RawTopic = RawTopic(
    topic: string,
    encoding: string,
    schemaEncoding: string,
    schema: Option<seq<byte>>,
    schemaName: string)

  /** A message definition the schema parser produces; only its value matters here. */
  datatype Definition = Definition(fields: seq<(string, string)>)

  /** What `parseChannel` returns: the full schema name and the datatypes it defines, in order. */
  datatype ParsedChannel = ParsedChannel(fullSchemaName: string, datatypes: seq<(string, Definition)>)

  /** The input of `parseChannel`. */
  datatype ChannelSpec = ChannelSpec(messageEncoding: string, schemaName: string, schema: seq<byte>, schemaEncoding: string)

  /** A cached parsed channel of a topic, with the encodings and schema it was parsed from. */
  datatype ChannelInfo = ChannelInfo(messageEncoding: string, schemaEncoding: string, schema: seq<byte>, parsed: ParsedChannel)

  datatype Topic = Topic(name: string, datatypeName: string)

  datatype Problem = Problem(severity: string, message: string)

  datatype Device = Device(id: string, name: string)

  datatype Initialization = Initialization(
    topics: seq<Topic>,
    datatypes: map<string, Definition>,
    start: nat,
    end: nat,
    problems: seq<Problem>,
    name: string)

  /**
   * What `initialize` ends with: one of the two "no data" errors, or the
   * initialization together with the device id it looked up.
   */
  datatype InitOutcome =
    | NoDataForDevice(deviceId: string, start: nat, end: nat)
    | NoDataForImport(importId: Option<string>)
    | Initialized(init: Initialization, deviceQueried: string)

  /** Whose data a stream request asks for. */
  datatype SourceId = DeviceSource(deviceId: string) | ImportSource(importId: string)

  /** The replay options of a backfill request. */
  datatype Replay = LastPerChannel(lookbackSeconds: nat)

  /** The parameters of one `streamMessages` request. */
  datatype Request = Request(source: SourceId, start: nat, end: nat, topics: seq<string>, replay: Option<Replay>)

  datatype ConsumptionType = Full | Partial

  datatype IteratorArgs = IteratorArgs(topics: seq<string>, start: Option<nat>, end: Option<nat>, consumption: ConsumptionType)

  datatype MessageEvent = MessageEvent(topic: string, receiveTime: nat)

  /** A stream window, both ends included. */
  datatype Window = Window(start: nat, end: nat)

  /** The source's state: its range, known topics, channel cache and coverage. */
  datatype SourceFields = SourceFields(
    start: Option<nat>,
    end: Option<nat>,
    knownTopicNames: seq<string>,
    parsedChannelsByTopic: map<string, seq<ChannelInfo>>,
    coverage: seq<Region>)

  /** The length of a partial-consumption window. */
  const WindowNs: nat := 5 * SEC

  /** How far back a backfill request looks: thirty minutes. */
  const BackfillLookbackSeconds: nat := 30 * 60

  const ErrorSeverity: string := "error"

  /** A string option is truthy when it is present and not empty. */
  predicate Truthy(s: Option<string>) {
    s.Some? && s.value != ""
  }

  /** `deviceId ? { deviceId } : { importId }`. */
  function SourceOf(deviceId: Option<string>, importId: Option<string>): (s: SourceId)
    requires Truthy(deviceId) || Truthy(importId)
    ensures Truthy(deviceId) ==> s == DeviceSource(deviceId.value)
    ensures !Truthy(deviceId) ==> s == ImportSource(importId.value)
  {
    if Truthy(deviceId) then DeviceSource(deviceId.value) else ImportSource(importId.value)
  }

  // ---------------------------------------------------------------------
  // initialize

  /** `minBy(coverage, c => c.start)`: the first region with the earliest start. */
  function EarliestStart(cov: seq<Region>): (r: Region)
    requires cov != []
    ensures r in cov
    ensures forall c :: c in cov ==> r.start <= c.start
  {
    if |cov| == 1 then cov[0]
    else
      var rest := EarliestStart(cov[1..]);
      assert forall c :: c in cov[1..] ==> c in cov;
      assert forall c :: c in cov ==> c == cov[0] || c in cov[1..];
      if rest.start < cov[0].start then rest else cov[0]
  }

  /** `maxBy(coverage, c => c.end)`: the first region with the latest end. */
  function LatestEnd(cov: seq<Region>): (r: Region)
    requires cov != []
    ensures r in cov
    ensures forall c :: c in cov ==> c.end <= r.end
  {
    if |cov| == 1 then cov[0]
    else
      var rest := LatestEnd(cov[1..]);
      assert forall c :: c in cov[1..] ==> c in cov;
      assert forall c :: c in cov ==> c == cov[0] || c in cov[1..];
      if rest.end > cov[0].end then rest else cov[0]
  }

  /** Two cached channels agree on message encoding, schema encoding and schema. */
  predicate SameChannel(a: ChannelInfo, b: ChannelInfo) {
    a.messageEncoding == b.messageEncoding && a.schemaEncoding == b.schemaEncoding && a.schema == b.schema
  }

  /** A cached channel was parsed from the encodings and schema of `raw`. */
  predicate Matches(info: ChannelInfo, raw: RawTopic) {
    raw.schema.Some? && info.messageEncoding == raw.encoding && info.schemaEncoding == raw.schemaEncoding
    && info.schema == raw.schema.value
  }

  /** One of `infos` was parsed from the encodings and schema of `raw`. */
  predicate Cached(infos: seq<ChannelInfo>, raw: RawTopic) {
    exists i :: 0 <= i < |infos| && Matches(infos[i], raw)
  }

  /** `datatypes.set(name, datatype)` for each pair in turn. */
  function AddDatatypes(m: map<string, Definition>, pairs: seq<(string, Definition)>): (r: map<string, Definition>)
    decreases |pairs|
  {
    if pairs == [] then m else AddDatatypes(m[pairs[0].0 := pairs[0].1], pairs[1..])
  }

  /** What the topic loop has built so far. */
  datatype TopicsAcc = TopicsAcc(
    parsed: map<string, seq<ChannelInfo>>,
    topics: seq<Topic>,
    datatypes: map<string, Definition>,
    problems: seq<Problem>)

  /** The channels cached for `topic`, none when it has no entry. */
  function ChannelsOf(parsed: map<string, seq<ChannelInfo>>, topic: string): seq<ChannelInfo> {
    if topic in parsed then parsed[topic] else []
  }

  function SpecOf(raw: RawTopic): ChannelSpec
    requires raw.schema.Some?
  {
    ChannelSpec(raw.encoding, raw.schemaName, raw.schema.value, raw.schemaEncoding)
  }

  /**
   * One turn of the topic loop. A topic without a schema adds a problem and
   * nothing else. Otherwise the topic gets a cache entry if it had none; a
   * channel already cached adds nothing more; a new one is parsed, and either
   * becomes a topic, a cached channel and datatypes, or adds a problem.
   */
  function TopicStep(acc: TopicsAcc, raw: RawTopic, parse: ChannelSpec -> Result<ParsedChannel>): (r: TopicsAcc)
    ensures raw.schema.None? ==>
              r == acc.(problems := acc.problems + [Problem(ErrorSeverity, "Missing schema for " + raw.topic)])
    ensures raw.schema.Some? ==> raw.topic in r.parsed
    ensures raw.schema.Some? && Cached(ChannelsOf(acc.parsed, raw.topic), raw) ==>
              r == acc.(parsed := acc.parsed[raw.topic := ChannelsOf(acc.parsed, raw.topic)])
    ensures forall t :: t in acc.parsed ==> t in r.parsed
    ensures forall t :: t in r.parsed && t != raw.topic ==> t in acc.parsed && r.parsed[t] == acc.parsed[t]
    ensures |r.topics| == |acc.topics| || |r.topics| == |acc.topics| + 1
    ensures r.topics[..|acc.topics|] == acc.topics
    ensures |r.topics| == |acc.topics| + 1 ==>
              && raw.schema.Some? && parse(SpecOf(raw)).Ok?
              && r.topics[|acc.topics|] == Topic(raw.topic, parse(SpecOf(raw)).value.fullSchemaName)
              && r.parsed[raw.topic] == ChannelsOf(acc.parsed, raw.topic)
                   + [ChannelInfo(raw.encoding, raw.schemaEncoding, raw.schema.value, parse(SpecOf(raw)).value)]
  {
    if raw.schema.None? then
      acc.(problems := acc.problems + [Problem(ErrorSeverity, "Missing schema for " + raw.topic)])
    else
      var infos := ChannelsOf(acc.parsed, raw.topic);
      var parsed := acc.parsed[raw.topic := infos];
      if Cached(infos, raw) then acc.(parsed := parsed)
      else match parse(SpecOf(raw))
        case Ok(pc) =>
          TopicsAcc(
            parsed[raw.topic := infos + [ChannelInfo(raw.encoding, raw.schemaEncoding, raw.schema.value, pc)]],
            acc.topics + [Topic(raw.topic, pc.fullSchemaName)],
            AddDatatypes(acc.datatypes, pc.datatypes),
            acc.problems)
        case Err(_) =>
          acc.(parsed := parsed, problems := acc.problems + [Problem(ErrorSeverity, "Failed to parse schema for topic " + raw.topic)])
  }

  /** The topic loop over `raws`, in order. */
  function TopicsLoop(acc: TopicsAcc, raws: seq<RawTopic>, parse: ChannelSpec -> Result<ParsedChannel>): TopicsAcc
    decreases |raws|
  {
    if raws == [] then acc else TopicsLoop(TopicStep(acc, raws[0], parse), raws[1..], parse)
  }

  function NamesOf(topics: seq<Topic>): (names: seq<string>)
    ensures |names| == |topics|
    ensures forall i :: 0 <= i < |topics| ==> names[i] == topics[i].name
  {
    if topics == [] then [] else [topics[0].name] + NamesOf(topics[1..])
  }

  /**
   * `initialize`: with no topics or no coverage, the "no data" error naming
   * the device and range when all three are set, else the import; nothing
   * changes. Otherwise the coverage is kept, the start is raised to the
   * earliest coverage start when unset or earlier, the end lowered to the
   * latest coverage end when unset or later, the topic loop runs from an
   * empty result, and the known topic names become the accepted topics'.
   */
  function InitializeSource(f: SourceFields, deviceId: Option<string>, importId: Option<string>, cov: seq<Region>,
                      raws: seq<RawTopic>, device: Device, parse: ChannelSpec -> Result<ParsedChannel>): (r: (SourceFields, InitOutcome))
    ensures (raws == [] || cov == []) <==> !r.1.Initialized?
    ensures !r.1.Initialized? ==> r.0 == f
    ensures r.1.NoDataForDevice? <==> (raws == [] || cov == []) && Truthy(deviceId) && f.start.Some? && f.end.Some?
    ensures r.1.Initialized? ==>
              && r.0.knownTopicNames == NamesOf(r.1.init.topics)
              && r.0.start == Some(r.1.init.start) && r.0.end == Some(r.1.init.end)
  {
    if |raws| == 0 || |cov| == 0 then
      (f, if Truthy(deviceId) && f.start.Some? && f.end.Some? then NoDataForDevice(deviceId.value, f.start.value, f.end.value)
          else NoDataForImport(importId))
    else
      var first := EarliestStart(cov);
      var last := LatestEnd(cov);
      var start := if f.start.None? || f.start.value < first.start then first.start else f.start.value;
      var end := if f.end.None? || f.end.value > last.end then last.end else f.end.value;
      var queried := if deviceId.Some? then deviceId.value else first.deviceId;
      var t := TopicsLoop(TopicsAcc(f.parsedChannelsByTopic, [], map[], []), raws, parse);
      (SourceFields(Some(start), Some(end), NamesOf(t.topics), t.parsed, cov),
       Initialized(Initialization(t.topics, t.datatypes, start, end, t.problems, device.name + " (" + device.id + ")"), queried))
  }

  // ---------------------------------------------------------------------
  // messageIterator

  /**
   * The coverage scan: the first region that holds `t` leaves it, the first
   * region that starts after `t` (and does not end before it) moves it to
   * that region's start; otherwise `t` stays.
   */
  function CoverageAdjust(regions: seq<Region>, t: nat): (r: nat)
    decreases |regions|
  {
    if regions == [] then t
    else if regions[0].start <= t <= regions[0].end then t
    else if t <= regions[0].end && t < regions[0].start then regions[0].start
    else CoverageAdjust(regions[1..], t)
  }

  /** The window starting at `s`: at most five seconds long, clamped to the stream range. */
  function WindowAt(streamStart: nat, streamEnd: nat, s: nat): Window {
    Window(s, ClampTime(s + WindowNs, streamStart, streamEnd))
  }

  /** What the loop requires of a window it has just streamed. */
  predicate Streamable(streamStart: nat, streamEnd: nat, w: Window) {
    w.end <= streamEnd && (w.end < streamEnd ==> streamStart <= w.start <= w.end)
  }

  /** The start of the window after `w`: one nanosecond past it, moved by the coverage scan, clamped. */
  function NextStart(regions: seq<Region>, streamStart: nat, streamEnd: nat, w: Window): nat {
    ClampTime(CoverageAdjust(regions, w.end + 1), streamStart, streamEnd)
  }

  /** The windows streamed from `w` on: `w`, then, until a window reaches the stream end, the next ones. */
  function WindowsFrom(regions: seq<Region>, streamStart: nat, streamEnd: nat, w: Window): seq<Window>
    requires Streamable(streamStart, streamEnd, w)
    decreases streamEnd - w.end
  {
    if w.end >= streamEnd then [w]
    else
      var next := WindowAt(streamStart, streamEnd, NextStart(regions, streamStart, streamEnd, w));
      NextWindowStreamable(regions, streamStart, streamEnd, w);
      [w] + WindowsFrom(regions, streamStart, streamEnd, next)
  }

  /** The first window of a partial consumption. */
  function FirstWindow(streamStart: nat, streamEnd: nat): (w: Window)
    ensures Streamable(streamStart, streamEnd, w)
  {
    WindowAt(streamStart, streamEnd, streamStart)
  }

  /** The windows of a partial consumption of `[streamStart, streamEnd]`. */
  function PartialWindows(regions: seq<Region>, streamStart: nat, streamEnd: nat): seq<Window> {
    WindowsFrom(regions, streamStart, streamEnd, FirstWindow(streamStart, streamEnd))
  }

  /**
   * The requests `messageIterator` makes: none for an empty topic list, for
   * topics none of which is known, or for a source without a range or
   * without a device or import id; otherwise one request for the whole
   * stream range on full consumption, one per window on partial consumption.
   * The stream starts at the requested start, else the source start, and
   * ends at the requested end, else the source end, clamped to the source range.
   */
  function IteratorRequests(f: SourceFields, deviceId: Option<string>, importId: Option<string>, args: IteratorArgs): (rs: seq<Request>)
    ensures rs != [] ==> |args.topics| > 0 && (exists i :: 0 <= i < |args.topics| && args.topics[i] in f.knownTopicNames)
    ensures rs != [] ==> f.start.Some? && f.end.Some? && (Truthy(deviceId) || Truthy(importId))
    ensures forall i :: 0 <= i < |rs| ==> rs[i].topics == args.topics && rs[i].replay.None?
  {
    if |args.topics| == 0 then []
    else if MatchingTopics(args.topics, f.knownTopicNames) == 0 then []
    else if f.start.None? || f.end.None? || (!Truthy(deviceId) && !Truthy(importId)) then []
    else
      var src := SourceOf(deviceId, importId);
      var streamStart := args.start.GetOr(f.start.value);
      var streamEnd := ClampTime(args.end.GetOr(f.end.value), f.start.value, f.end.value);
      if args.consumption.Full? then [Request(src, streamStart, streamEnd, args.topics, None)]
      else RequestsOf(src, args.topics, PartialWindows(f.coverage, streamStart, streamEnd))
  }

  /** How many of `topics` are known, counting repeats. */
  function MatchingTopics(topics: seq<string>, known: seq<string>): (n: nat)
    ensures n == 0 <==> forall i :: 0 <= i < |topics| ==> topics[i] !in known
    decreases |topics|
  {
    if topics == [] then 0
    else (if topics[0] in known then 1 else 0) + MatchingTopics(topics[1..], known)
  }

  /** One stream request per window. */
  function RequestsOf(src: SourceId, topics: seq<string>, ws: seq<Window>): (rs: seq<Request>)
    ensures |rs| == |ws|
    ensures forall i :: 0 <= i < |ws| ==> rs[i] == Request(src, ws[i].start, ws[i].end, topics, None)
    decreases |ws|
  {
    if ws == [] then [] else [Request(src, ws[0].start, ws[0].end, topics, None)] + RequestsOf(src, topics, ws[1..])
  }

  // ---------------------------------------------------------------------
  // getBackfillMessages

  /** The messages of the blocks, in order. */
  function Flatten(blocks: seq<seq<MessageEvent>>): seq<MessageEvent>
    decreases |blocks|
  {
    if blocks == [] then [] else Flatten(blocks[..|blocks| - 1]) + blocks[|blocks| - 1]
  }

  /**
   * The request `getBackfillMessages` makes: none for an empty topic list or
   * a source without device or import id; otherwise the instant `time` with
   * the last message per channel looked up thirty minutes back.
   */
  function BackfillRequest(deviceId: Option<string>, importId: Option<string>, topics: seq<string>, time: nat): (r: Option<Request>)
    ensures r.Some? <==> |topics| > 0 && (Truthy(deviceId) || Truthy(importId))
    ensures r.Some? ==> r.value.start == time == r.value.end && r.value.topics == topics
    ensures r.Some? ==> r.value.replay == Some(LastPerChannel(1800))
  {
    if |topics| == 0 || (!Truthy(deviceId) && !Truthy(importId)) then None
    else Some(Request(SourceOf(deviceId, importId), time, time, topics, Some(LastPerChannel(BackfillLookbackSeconds))))
  }

  // ---------------------------------------------------------------------
  // Properties

  /** The coverage scan never moves a time back, and moves it only to a region's start. */
  lemma {:induction false} CoverageAdjustForward(regions: seq<Region>, t: nat)
    ensures CoverageAdjust(regions, t) >= t
    ensures CoverageAdjust(regions, t) == t || exists i :: 0 <= i < |regions| && CoverageAdjust(regions, t) == regions[i].start
    decreases |regions|
  {
    if regions != [] && !(regions[0].start <= t <= regions[0].end) && !(t <= regions[0].end && t < regions[0].start) {
      CoverageAdjustForward(regions[1..], t);
      if CoverageAdjust(regions, t) != t {
        var i :| 0 <= i < |regions[1..]| && CoverageAdjust(regions[1..], t) == regions[1..][i].start;
        assert regions[i + 1].start == regions[1..][i].start;
      }
    }
  }

  /** A time inside the first region that holds it, with no earlier region after it, is not moved. */
  lemma {:induction false} CoverageAdjustInside(regions: seq<Region>, t: nat, k: nat)
    requires k < |regions| && regions[k].start <= t <= regions[k].end
    requires forall i :: 0 <= i < k ==> regions[i].end < t
    ensures CoverageAdjust(regions, t) == t
    decreases k
  {
    if k > 0 {
      CoverageAdjustInside(regions[1..], t, k - 1);
    }
  }

  /** After a window short of the stream end, the next window starts past it and stays streamable. */
  lemma NextWindowStreamable(regions: seq<Region>, streamStart: nat, streamEnd: nat, w: Window)
    requires Streamable(streamStart, streamEnd, w) && w.end < streamEnd
    ensures var s := NextStart(regions, streamStart, streamEnd, w);
            w.end < s <= streamEnd && Streamable(streamStart, streamEnd, WindowAt(streamStart, streamEnd, s))
  {
    CoverageAdjustForward(regions, w.end + 1);
  }

  /**
   * Windows are bounded: within a stream range that is not inverted, every
   * window lies inside it and does not end before it starts.
   */
  lemma {:induction false} WindowsBounded(regions: seq<Region>, streamStart: nat, streamEnd: nat, w: Window)
    requires Streamable(streamStart, streamEnd, w) && streamStart <= w.start <= w.end
    ensures var ws := WindowsFrom(regions, streamStart, streamEnd, w);
            forall i :: 0 <= i < |ws| ==> streamStart <= ws[i].start <= ws[i].end <= streamEnd
    decreases streamEnd - w.end
  {
    if w.end < streamEnd {
      var next := WindowAt(streamStart, streamEnd, NextStart(regions, streamStart, streamEnd, w));
      NextWindowStreamable(regions, streamStart, streamEnd, w);
      assert streamStart <= next.start <= next.end;
      WindowsBounded(regions, streamStart, streamEnd, next);
      assert WindowsFrom(regions, streamStart, streamEnd, w) == [w] + WindowsFrom(regions, streamStart, streamEnd, next);
    }
  }

  /**
   * Windows are ascending and do not overlap: each one starts after the
   * previous one ends.
   */
  lemma {:induction false} WindowsAscending(regions: seq<Region>, streamStart: nat, streamEnd: nat, w: Window)
    requires Streamable(streamStart, streamEnd, w)
    ensures var ws := WindowsFrom(regions, streamStart, streamEnd, w);
            ws[0] == w && forall i :: 0 <= i < |ws| - 1 ==> ws[i].end < ws[i + 1].start
    decreases streamEnd - w.end
  {
    if w.end < streamEnd {
      var next := WindowAt(streamStart, streamEnd, NextStart(regions, streamStart, streamEnd, w));
      NextWindowStreamable(regions, streamStart, streamEnd, w);
      WindowsAscending(regions, streamStart, streamEnd, next);
    }
  }

  /**
   * The loop ends at the stream end: the last window reaches it, no earlier
   * window does, and every window after the first is at most five seconds long.
   */
  lemma {:induction false} WindowsReachEnd(regions: seq<Region>, streamStart: nat, streamEnd: nat, w: Window)
    requires Streamable(streamStart, streamEnd, w)
    ensures var ws := WindowsFrom(regions, streamStart, streamEnd, w);
            && ws[|ws| - 1].end == streamEnd
            && (forall i :: 0 <= i < |ws| - 1 ==> ws[i].end < streamEnd)
            && (forall i :: 1 <= i < |ws| ==> ws[i].end <= ws[i].start + WindowNs)
    decreases streamEnd - w.end
  {
    if w.end < streamEnd {
      var next := WindowAt(streamStart, streamEnd, NextStart(regions, streamStart, streamEnd, w));
      NextWindowStreamable(regions, streamStart, streamEnd, w);
      WindowsReachEnd(regions, streamStart, streamEnd, next);
    }
  }

  /**
   * A partial consumption of a range that is not inverted starts at the
   * stream start, ends at the stream end, and its windows are bounded,
   * ascending and non-overlapping.
   */
  lemma PartialWindowsSpec(regions: seq<Region>, streamStart: nat, streamEnd: nat)
    requires streamStart <= streamEnd
    ensures var ws := PartialWindows(regions, streamStart, streamEnd);
            && ws != [] && ws[0].start == streamStart && ws[|ws| - 1].end == streamEnd
            && (forall i :: 0 <= i < |ws| ==> streamStart <= ws[i].start <= ws[i].end <= streamEnd)
            && (forall i :: 0 <= i < |ws| - 1 ==> ws[i].end < ws[i + 1].start)
  {
    var w := FirstWindow(streamStart, streamEnd);
    WindowsBounded(regions, streamStart, streamEnd, w);
    WindowsAscending(regions, streamStart, streamEnd, w);
    WindowsReachEnd(regions, streamStart, streamEnd, w);
  }

  /** A requested start after the stream end gives one inverted window from the start to the end. */
  lemma InvertedRangeOneWindow(regions: seq<Region>, streamStart: nat, streamEnd: nat)
    requires streamEnd < streamStart
    ensures PartialWindows(regions, streamStart, streamEnd) == [Window(streamStart, streamEnd)]
  {
  }

  /**
   * Every request `messageIterator` makes asks for the given topics; a full
   * consumption makes exactly one, and a partial one makes requests whose
   * windows are bounded by, ascending through and ending at the stream range.
   */
  lemma IteratorRequestsSpec(f: SourceFields, deviceId: Option<string>, importId: Option<string>, args: IteratorArgs)
    requires IteratorRequests(f, deviceId, importId, args) != []
    ensures var rs := IteratorRequests(f, deviceId, importId, args);
            var streamStart := args.start.GetOr(f.start.value);
            var streamEnd := ClampTime(args.end.GetOr(f.end.value), f.start.value, f.end.value);
            && (forall i :: 0 <= i < |rs| ==> rs[i].source == SourceOf(deviceId, importId))
            && (args.consumption.Full? ==> |rs| == 1 && rs[0].start == streamStart && rs[0].end == streamEnd)
            && (args.consumption.Partial? && streamStart <= streamEnd ==>
                  && rs[0].start == streamStart && rs[|rs| - 1].end == streamEnd
                  && (forall i :: 0 <= i < |rs| ==> streamStart <= rs[i].start <= rs[i].end <= streamEnd)
                  && (forall i :: 0 <= i < |rs| - 1 ==> rs[i].end < rs[i + 1].start))
  {
    var streamStart := args.start.GetOr(f.start.value);
    var streamEnd := ClampTime(args.end.GetOr(f.end.value), f.start.value, f.end.value);
    if args.consumption.Partial? && streamStart <= streamEnd {
      PartialWindowsSpec(f.coverage, streamStart, streamEnd);
    }
  }

  /**
   * The range after `initialize` lies inside the coverage: an unset or
   * earlier start becomes the earliest coverage start, an unset or later end
   * the latest coverage end, and a start or end already inside is kept.
   */
  lemma InitializeRange(f: SourceFields, deviceId: Option<string>, importId: Option<string>, cov: seq<Region>,
                        raws: seq<RawTopic>, device: Device, parse: ChannelSpec -> Result<ParsedChannel>)
    requires raws != [] && cov != []
    ensures var r := InitializeSource(f, deviceId, importId, cov, raws, device, parse);
            && r.0.start.Some? && r.0.end.Some? && r.0.coverage == cov
            && r.0.start.value >= EarliestStart(cov).start && r.0.end.value <= LatestEnd(cov).end
            && (f.start.Some? && f.start.value >= EarliestStart(cov).start ==> r.0.start == f.start)
            && (f.end.Some? && f.end.value <= LatestEnd(cov).end ==> r.0.end == f.end)
            && (f.start.None? || f.start.value < EarliestStart(cov).start ==> r.0.start == Some(EarliestStart(cov).start))
            && (f.end.None? || f.end.value > LatestEnd(cov).end ==> r.0.end == Some(LatestEnd(cov).end))
            && r.1.init.start == r.0.start.value && r.1.init.end == r.0.end.value
  {
  }

  /** No cached channel of a topic repeats another's encodings and schema. */
  predicate DistinctChannels(parsed: map<string, seq<ChannelInfo>>) {
    forall t, i, j :: t in parsed && 0 <= i < j < |parsed[t]| ==> !SameChannel(parsed[t][i], parsed[t][j])
  }

  /** Every accepted topic has a cache entry. */
  predicate TopicsCached(acc: TopicsAcc) {
    forall i :: 0 <= i < |acc.topics| ==> acc.topics[i].name in acc.parsed
  }

  /** One turn of the topic loop keeps the cache free of repeated channels and every accepted topic cached. */
  lemma TopicStepKeeps(acc: TopicsAcc, raw: RawTopic, parse: ChannelSpec -> Result<ParsedChannel>)
    requires DistinctChannels(acc.parsed) && TopicsCached(acc)
    ensures DistinctChannels(TopicStep(acc, raw, parse).parsed) && TopicsCached(TopicStep(acc, raw, parse))
  {
    var r := TopicStep(acc, raw, parse);
    if raw.schema.Some? && !Cached(ChannelsOf(acc.parsed, raw.topic), raw) && parse(SpecOf(raw)).Ok? {
      var infos := ChannelsOf(acc.parsed, raw.topic);
      var added := ChannelInfo(raw.encoding, raw.schemaEncoding, raw.schema.value, parse(SpecOf(raw)).value);
      assert r.parsed[raw.topic] == infos + [added];
      forall i | 0 <= i < |infos|
        ensures !SameChannel(infos[i], added)
      {
        assert !Matches(infos[i], raw);
      }
    }
  }

  /**
   * Over the whole topic loop, a channel with the same encodings and schema
   * as one already cached for its topic is never cached again, and every
   * accepted topic has a cache entry.
   */
  lemma {:induction false} TopicsLoopKeeps(acc: TopicsAcc, raws: seq<RawTopic>, parse: ChannelSpec -> Result<ParsedChannel>)
    requires DistinctChannels(acc.parsed) && TopicsCached(acc)
    ensures DistinctChannels(TopicsLoop(acc, raws, parse).parsed) && TopicsCached(TopicsLoop(acc, raws, parse))
    decreases |raws|
  {
    if raws != [] {
      TopicStepKeeps(acc, raws[0], parse);
      TopicsLoopKeeps(TopicStep(acc, raws[0], parse), raws[1..], parse);
    }
  }

  /**
   * `initialize` keeps the channel cache free of repeats, and afterwards
   * every known topic name has cached channels.
   */
  lemma InitializeKeepsCache(f: SourceFields, deviceId: Option<string>, importId: Option<string>, cov: seq<Region>,
                             raws: seq<RawTopic>, device: Device, parse: ChannelSpec -> Result<ParsedChannel>)
    requires DistinctChannels(f.parsedChannelsByTopic)
    ensures var r := InitializeSource(f, deviceId, importId, cov, raws, device, parse);
            && DistinctChannels(r.0.parsedChannelsByTopic)
            && (r.1.Initialized? ==> forall n :: n in r.0.knownTopicNames ==> n in r.0.parsedChannelsByTopic)
  {
    if raws != [] && cov != [] {
      var acc := TopicsAcc(f.parsedChannelsByTopic, [], map[], []);
      TopicsLoopKeeps(acc, raws, parse);
    }
  }

  /** A topic whose channel is already cached, or that has no schema, adds no topic. */
  lemma CachedTopicNotRepeated(acc: TopicsAcc, raw: RawTopic, parse: ChannelSpec -> Result<ParsedChannel>)
    requires raw.schema.None? || Cached(ChannelsOf(acc.parsed, raw.topic), raw)
    ensures TopicStep(acc, raw, parse).topics == acc.topics
    ensures TopicStep(acc, raw, parse).datatypes == acc.datatypes
  {
  }

  /** After the datatypes of a parsed channel are added, a name takes the definition of its last pair. */
  lemma {:induction false} AddDatatypesLastWins(m: map<string, Definition>, pairs: seq<(string, Definition)>, k: string)
    ensures (exists i :: 0 <= i < |pairs| && pairs[i].0 == k) || k in m <==> k in AddDatatypes(m, pairs)
    ensures forall i :: 0 <= i < |pairs| && pairs[i].0 == k && (forall j :: i < j < |pairs| ==> pairs[j].0 != k) ==>
              AddDatatypes(m, pairs)[k] == pairs[i].1
    ensures (forall i :: 0 <= i < |pairs| ==> pairs[i].0 != k) && k in m ==> AddDatatypes(m, pairs)[k] == m[k]
    decreases |pairs|
  {
    if pairs != [] {
      var m' := m[pairs[0].0 := pairs[0].1];
      AddDatatypesLastWins(m', pairs[1..], k);
      assert forall i :: 1 <= i < |pairs| ==> pairs[i] == pairs[1..][i - 1];
      if (exists i :: 0 <= i < |pairs| && pairs[i].0 == k) {
        var i :| 0 <= i < |pairs| && pairs[i].0 == k;
        if i > 0 {
          assert pairs[1..][i - 1].0 == k;
        }
      }
    }
  }

  /** Backfill concatenates the blocks: a message is returned exactly when some block holds it. */
  lemma {:induction false} FlattenMembers(blocks: seq<seq<MessageEvent>>, m: MessageEvent)
    ensures m in Flatten(blocks) <==> exists i :: 0 <= i < |blocks| && m in blocks[i]
    decreases |blocks|
  {
    if blocks != [] {
      var init := blocks[..|blocks| - 1];
      FlattenMembers(init, m);
      if m in Flatten(blocks) && m !in blocks[|blocks| - 1] {
        var i :| 0 <= i < |init| && m in init[i];
        assert blocks[i] == init[i];
      }
      if (exists i :: 0 <= i < |blocks| && m in blocks[i]) {
        var i :| 0 <= i < |blocks| && m in blocks[i];
        if i < |blocks| - 1 {
          assert init[i] == blocks[i];
        }
      }
    }
  }

  // ---------------------------------------------------------------------
  // The source

  class DataPlatformIterableSource {
    var start: Option<nat>
    var end: Option<nat>
    const deviceId: Option<string>
    const importId: Option<string>
    var knownTopicNames: seq<string>
    /** Cached parsed channels of each topic, one per distinct encoding and schema. */
    var parsedChannelsByTopic: map<string, seq<ChannelInfo>>
    var coverage: seq<Region>

    function Fields(): SourceFields
      reads this
    {
      SourceFields(start, end, knownTopicNames, parsedChannelsByTopic, coverage)
    }

    /** The options' range and ids; no known topics, no cached channels, no coverage. */
    constructor (deviceId: Option<string>, importId: Option<string>, start: Option<nat>, end: Option<nat>)
      ensures Fields() == SourceFields(start, end, [], map[], [])
      ensures this.deviceId == deviceId && this.importId == importId
      ensures DistinctChannels(parsedChannelsByTopic)
    {
      this.start := start;
      this.end := end;
      this.deviceId := deviceId;
      this.importId := importId;
      knownTopicNames := [];
      parsedChannelsByTopic := map[];
      coverage := [];
    }

    /**
     * `initialize`, given the platform's coverage and topics, the device it
     * returns, and the schema parser.
     */
    method Initialize(cov: seq<Region>, raws: seq<RawTopic>, device: Device, parse: ChannelSpec -> Result<ParsedChannel>)
      returns (r: InitOutcome)
      modifies this
      ensures (Fields(), r) == InitializeSource(old(Fields()), deviceId, importId, cov, raws, device, parse)
    {
      if |raws| == 0 || |cov| == 0 {
        if Truthy(deviceId) && start.Some? && end.Some? {
          return NoDataForDevice(deviceId.value, start.value, end.value);
        }
        return NoDataForImport(importId);
      }
      coverage := cov;
      var first := EarliestStart(cov);
      var last := LatestEnd(cov);
      var queried := if deviceId.Some? then deviceId.value else first.deviceId;
      if start.None? || start.value < first.start {
        start := Some(first.start);
      }
      if end.None? || end.value > last.end {
        end := Some(last.end);
      }
      ghost var total := TopicsLoop(TopicsAcc(parsedChannelsByTopic, [], map[], []), raws, parse);
      var topics: seq<Topic> := [];
      var datatypes: map<string, Definition> := map[];
      var problems: seq<Problem> := [];
      var rest := raws;
      while rest != []
        invariant TopicsLoop(TopicsAcc(parsedChannelsByTopic, topics, datatypes, problems), rest, parse) == total
        invariant start == Some(if old(start).None? || old(start).value < first.start then first.start else old(start).value)
        invariant end == Some(if old(end).None? || old(end).value > last.end then last.end else old(end).value)
        invariant coverage == cov && knownTopicNames == old(knownTopicNames)
        decreases |rest|
      {
        topics, datatypes, problems := AddTopic(rest[0], parse, topics, datatypes, problems);
        rest := rest[1..];
      }
      knownTopicNames := NamesOf(topics);
      r := Initialized(Initialization(topics, datatypes, start.value, end.value, problems, device.name + " (" + device.id + ")"), queried);
    }

    /** One turn of the topic loop, against `TopicStep`. */
    method AddTopic(raw: RawTopic, parse: ChannelSpec -> Result<ParsedChannel>,
                    topics: seq<Topic>, datatypes: map<string, Definition>, problems: seq<Problem>)
      returns (topics': seq<Topic>, datatypes': map<string, Definition>, problems': seq<Problem>)
      modifies this
      ensures TopicsAcc(parsedChannelsByTopic, topics', datatypes', problems')
              == TopicStep(TopicsAcc(old(parsedChannelsByTopic), topics, datatypes, problems), raw, parse)
      ensures start == old(start) && end == old(end) && coverage == old(coverage)
      ensures knownTopicNames == old(knownTopicNames)
    {
      topics', datatypes', problems' := topics, datatypes, problems;
      if raw.schema.None? {
        problems' := problems + [Problem(ErrorSeverity, "Missing schema for " + raw.topic)];
        return;
      }
      var infos := ChannelsOf(parsedChannelsByTopic, raw.topic);
      parsedChannelsByTopic := parsedChannelsByTopic[raw.topic := infos];
      var seen := FindChannel(infos, raw);
      if seen {
        return;
      }
      match parse(SpecOf(raw))
      case Ok(pc) =>
        topics' := topics + [Topic(raw.topic, pc.fullSchemaName)];
        parsedChannelsByTopic := parsedChannelsByTopic[raw.topic := infos + [ChannelInfo(raw.encoding, raw.schemaEncoding, raw.schema.value, pc)]];
        datatypes' := SetDatatypes(datatypes, pc.datatypes);
      case Err(_) =>
        problems' := problems + [Problem(ErrorSeverity, "Failed to parse schema for topic " + raw.topic)];
    }

    /**
     * `messageIterator`, as the stream requests it makes in order; it yields
     * the messages of each request's stream in turn.
     */
    method MessageIterator(args: IteratorArgs) returns (requests: seq<Request>)
      ensures requests == IteratorRequests(Fields(), deviceId, importId, args)
    {
      if |args.topics| == 0 {
        return [];
      }
      var matching := CountMatching(args.topics, knownTopicNames);
      if matching == 0 {
        return [];
      }
      if start.None? || end.None? || (!Truthy(deviceId) && !Truthy(importId)) {
        return [];
      }
      var src := SourceOf(deviceId, importId);
      var streamStart := args.start.GetOr(start.value);
      var streamEnd := ClampTime(args.end.GetOr(end.value), start.value, end.value);
      if args.consumption.Full? {
        return [Request(src, streamStart, streamEnd, args.topics, None)];
      }
      var windows := StreamWindows(streamStart, streamEnd);
      requests := RequestsOf(src, args.topics, windows);
    }

    /** The window loop of a partial consumption. */
    method StreamWindows(streamStart: nat, streamEnd: nat) returns (windows: seq<Window>)
      ensures windows == PartialWindows(coverage, streamStart, streamEnd)
    {
      var localStart: nat := streamStart;
      var localEnd: nat := ClampTime(localStart + WindowNs, streamStart, streamEnd);
      windows := [];
      while true
        invariant Streamable(streamStart, streamEnd, Window(localStart, localEnd))
        invariant windows + WindowsFrom(coverage, streamStart, streamEnd, Window(localStart, localEnd))
                  == PartialWindows(coverage, streamStart, streamEnd)
        decreases streamEnd - localEnd
      {
        var w := Window(localStart, localEnd);
        windows := windows + [w];
        if localEnd >= streamEnd {
          return;
        }
        localStart := AdjustToCoverage(localEnd + 1);
        localStart := ClampTime(localStart, streamStart, streamEnd);
        localEnd := ClampTime(localStart + WindowNs, streamStart, streamEnd);
        NextWindowStreamable(coverage, streamStart, streamEnd, w);
        assert windows + WindowsFrom(coverage, streamStart, streamEnd, Window(localStart, localEnd))
               == (windows[..|windows| - 1] + [w]) + WindowsFrom(coverage, streamStart, streamEnd, Window(localStart, localEnd));
      }
    }

    /** The coverage scan, as a loop that breaks at the first region that decides. */
    method AdjustToCoverage(t: nat) returns (r: nat)
      ensures r == CoverageAdjust(coverage, t)
    {
      r := t;
      var rest := coverage;
      while rest != []
        invariant CoverageAdjust(rest, t) == CoverageAdjust(coverage, t)
        decreases |rest|
      {
        var c := rest[0];
        if c.start <= t <= c.end {
          return;
        }
        if t <= c.end && t < c.start {
          return c.start;
        }
        rest := rest[1..];
      }
    }

    /** `getBackfillMessages`, given the blocks the backfill stream delivers. */
    method GetBackfillMessages(topics: seq<string>, time: nat, blocks: seq<seq<MessageEvent>>)
      returns (request: Option<Request>, messages: seq<MessageEvent>)
      ensures request == BackfillRequest(deviceId, importId, topics, time)
      ensures messages == if request.None? then [] else Flatten(blocks)
    {
      if |topics| == 0 {
        return None, [];
      }
      if !Truthy(deviceId) && !Truthy(importId) {
        return None, [];
      }
      request := Some(Request(SourceOf(deviceId, importId), time, time, topics, Some(LastPerChannel(BackfillLookbackSeconds))));
      messages := [];
      for i := 0 to |blocks|
        invariant messages == Flatten(blocks[..i])
      {
        assert blocks[..i + 1][..i] == blocks[..i];
        messages := messages + blocks[i];
      }
      assert blocks[..|blocks|] == blocks;
    }
  }

  /** The loop over cached channels that looks for one parsed from `raw`. */
  method FindChannel(infos: seq<ChannelInfo>, raw: RawTopic) returns (found: bool)
    ensures found == Cached(infos, raw)
  {
    for i := 0 to |infos|
      invariant forall j :: 0 <= j < i ==> !Matches(infos[j], raw)
    {
      if raw.schema.Some? && infos[i].messageEncoding == raw.encoding && infos[i].schemaEncoding == raw.schemaEncoding
         && infos[i].schema == raw.schema.value {
        return true;
      }
    }
    return false;
  }

  /** The loop that sets each datatype of a parsed channel. */
  method SetDatatypes(m: map<string, Definition>, pairs: seq<(string, Definition)>) returns (r: map<string, Definition>)
    ensures r == AddDatatypes(m, pairs)
  {
    r := m;
    var rest := pairs;
    while rest != []
      invariant AddDatatypes(r, rest) == AddDatatypes(m, pairs)
      decreases |rest|
    {
      r := r[rest[0].0 := rest[0].1];
      rest := rest[1..];
    }
  }

  /** The `reduce` that counts the requested topics that are known. */
  method CountMatching(topics: seq<string>, known: seq<string>) returns (n: nat)
    ensures n == MatchingTopics(topics, known)
  {
    n := 0;
    var rest := topics;
    while rest != []
      invariant n + MatchingTopics(rest, known) == MatchingTopics(topics, known)
      decreases |rest|
    {
      if rest[0] in known {
        n := n + 1;
      }
      rest := rest[1..];
    }
  }
}

/**
 * The playback worker of the iterable player, as transitions of its fields.
 *
 * `WorkerFields` holds every field of the worker the playback logic reads or
 * writes. Each command (seek, pause, play, set subscriptions, set speed) and
 * each state of the state machine (start-play, idle, seek-backfill, play,
 * reset-playback-iterator) is a function from the fields before to the
 * fields after. The worker class proves its methods against these functions.
 *
 * The source suspends at `await`s, where commands from the player can run
 * before it resumes; a state that checks `_nextState` after an `await` takes
 * the commands that arrive there as an input and applies them at that point.
 * Times are whole nanoseconds; a time object also carries its identity, since
 * the snapshot diff compares objects by identity.
 */
module WorkerPlayback {
  import opened Wrappers
  import opened JsValues
  import opened RosTime
  import opened PlaybackState

  /** The initial read covers the first 99 ms of the recording. */
  const SEEK_ON_START_NS: nat := 99 * MSEC

  const UninitializedMessage: string := "uninitialized"
  const PlayUntilMessage: string := "Invariant: playUntil time must be after the current time"
  const TickNoTimeMessage: string := "Invariant: Tried to play with no current time."
  const NoIteratorMessage: string := "Invariant. this._playbackIterator is undefined."
  const IteratorSetMessage: string := "Invariant. playbackIterator was already set"
  const ResetNoTimeMessage: string := "Invariant: Tried to reset playback iterator with no current time."
  const PlayNoTimeMessage: string := "Invariant: currentTime not set before statePlay"
  const AbortExistsMessage: string := "Invariant: some other abort controller exists"
  const NoSourceMessage: string := "No such source type: "

  datatype State = Preinit | StartPlay | Idle | SeekBackfill | Play | ResetPlaybackIterator

  /** A `Time` object: its instant and its identity. */
  datatype TimeObj = TimeObj(ns: nat, ref: nat)

  datatype MessageEvent = MessageEvent(topic: string, receiveTime: nat)

  datatype Problem = Problem(severity: string, message: string)

  /** The keys problems are stored under: `init-problem-<i>`, `connid-<id>` and `global-error`. */
  datatype ProblemKey = InitProblem(index: nat) | ConnId(connectionId: nat) | GlobalError

  /** What the message iterator yields: a message, or a problem of a connection. */
  datatype IterResult = Msg(event: MessageEvent) | ProblemResult(connectionId: nat, problem: Problem)

  /**
   * A forward message iterator opened on `topics` from `start`: the results
   * the source yields, and how many have been read.
   */
  datatype Cursor = Cursor(topics: set<string>, start: nat, items: seq<IterResult>, pos: nat)

  datatype PreloadType = PartialPreload | FullPreload

  datatype Subscription = Subscription(topic: string, preloadType: Option<PreloadType>)

  datatype Topic = Topic(name: string, schemaName: string)

  /**
   * A command the player forwards to the worker. The player's
   * `setPlaybackSpeed` forwards nothing, so a speed change never arrives here.
   */
  datatype Command =
    | SeekCmd(time: nat)
    | PauseCmd
    | PlayCmd(until: Option<nat>)
    | SubscribeCmd(subscriptions: seq<Subscription>)

  /** Commands that arrive at await number `at` of a state (its `at`-th iterator read, from 0). */
  datatype Arrival = Arrival(at: nat, commands: seq<Command>)

  /** What the listener received: the partial state, and the messages of the array it refers to. */
  datatype Emission = Emission(partial: map<Key, Val>, batch: seq<MessageEvent>)

  /** What the source reported when it initialized, and the objects the worker took from it. */
  datatype SourceInfo = SourceInfo(
    /** Whether `_bufferedSource` is set. */
    initialized: bool,
    name: Option<string>,
    profile: Option<string>,
    id: string,
    capabilitiesRef: nat,
    topicsRef: nat,
    topicStatsRef: nat,
    datatypesRef: nat,
    publishedTopicsRef: nat,
    providerTopics: seq<Topic>,
    start: TimeObj,
    end: TimeObj)

  /** The subscriptions and the two topic sets derived from them; `allTopicsRef` is the identity of `_allTopics`. */
  datatype Subscribed = Subscribed(
    subscriptions: seq<Subscription>,
    allTopics: set<string>,
    allTopicsRef: nat,
    partialTopics: set<string>)

  /** The emission side: the listener, the pending messages, the previous snapshot and what was sent. */
  datatype Outbox = Outbox(
    hasListener: bool,
    messages: seq<MessageEvent>,
    messagesRef: nat,
    hasEmittedError: bool,
    prevState: Option<map<Key, Val>>,
    /** Everything handed to the listener, in order. */
    emitted: seq<Emission>)

  datatype WorkerFields = WorkerFields(
    state: State,
    nextState: Option<State>,
    runningState: bool,
    /** Whether `_abort` holds an abort controller. */
    abortActive: bool,
    subs: Subscribed,
    src: SourceInfo,
    out: Outbox,
    progressRef: nat,
    hasError: bool,
    presence: PlayerPresence,
    isPlaying: bool,
    speed: real,
    currentTime: Option<TimeObj>,
    lastSeekEmitTime: nat,
    untilTime: Option<TimeObj>,
    lastMessage: Option<MessageEvent>,
    seekTarget: Option<TimeObj>,
    problems: map<ProblemKey, Problem>,
    /** The playback iterator. */
    cursor: Option<Cursor>,
    /** The identity the next new object gets. */
    nextRef: nat)

  /** The fields after an operation, and whether it threw. */
  datatype Next = Next(f: WorkerFields, outcome: Outcome)

  /**
   * What no operation of a state or a command changes or undoes: the current
   * state, the running flag, the emission history (only ever extended) and
   * the allocation counter.
   */
  predicate Steady(f: WorkerFields, g: WorkerFields) {
    && g.state == f.state
    && g.runningState == f.runningState
    && f.out.emitted <= g.out.emitted
    && f.nextRef <= g.nextRef
  }

  lemma SteadyTrans(f: WorkerFields, g: WorkerFields, h: WorkerFields)
    requires Steady(f, g) && Steady(g, h)
    ensures Steady(f, h)
  {
  }

  // ---------------------------------------------------------------- _setState, _setError

  /**
   * `_setState`: records the requested state and drops the abort controller;
   * the playback iterator is dropped exactly when the new state is neither
   * idle nor play. Nothing else changes.
   */
  function Requested(f: WorkerFields, s: State): (g: WorkerFields)
    ensures g.nextState == Some(s) && !g.abortActive
    ensures g.cursor == if s == Idle || s == Play then f.cursor else None
    ensures Steady(f, g)
  {
    f.(nextState := Some(s), abortActive := false,
       cursor := if s != Idle && s != Play then None else f.cursor)
  }

  /** Requesting a state changes nothing but the pending state, the abort controller and the iterator. */
  lemma RequestedFrame(f: WorkerFields, s: State)
    ensures Requested(f, s).(nextState := f.nextState, abortActive := f.abortActive, cursor := f.cursor) == f
  {
  }

  /** `_setError`: flags the error, records it as the `global-error` problem and stops playing. */
  function WithError(f: WorkerFields, message: string): (g: WorkerFields)
    ensures g.hasError && !g.isPlaying
    ensures GlobalError in g.problems && g.problems[GlobalError] == Problem("error", message)
    ensures forall k :: k in f.problems && k != GlobalError ==> k in g.problems && g.problems[k] == f.problems[k]
    ensures Steady(f, g)
  {
    f.(hasError := true, problems := f.problems[GlobalError := Problem("error", message)], isPlaying := false)
  }

  // ---------------------------------------------------------------- _emitStateImpl

  function OptStr(o: Option<string>): Val {
    match o
    case None => Undefined
    case Some(s) => Str(s)
  }

  /** The keys of the snapshot the worker builds, in the order its object literal lists them. */
  const SnapshotKeys: seq<Key> := [Name, Presence, Progress, Capabilities, Profile, PlayerId, Problems,
    UrlState, Messages, TotalBytesReceived, CurrentTime, StartTime, EndTime, IsPlaying, Speed,
    LastSeekTime, Topics, TopicStats, Datatypes, PublishedTopics]

  /** Whether `k` is one of the properties a snapshot carries. */
  predicate InSnapshot(k: Key) {
    !(k.SubscribedTopics? || k.Services? || k.Parameters?)
  }

  /** The snapshot keys are exactly the properties a snapshot carries. */
  lemma SnapshotKeysSpec(k: Key)
    ensures k in SnapshotKeys <==> InSnapshot(k)
  {
  }

  /**
   * Property `k` of the snapshot of the fields; the problem list and the URL
   * state are new objects each time (`problemsRef`, `urlStateRef`). The byte
   * count is never updated and stays 0.
   */
  function SnapshotVal(f: WorkerFields, problemsRef: nat, urlStateRef: nat, k: Key): Val {
    match k
    case Name => OptStr(f.src.name)
    case Presence => PresenceVal(f.presence)
    case Progress => Obj(f.progressRef)
    case Capabilities => Obj(f.src.capabilitiesRef)
    case Profile => OptStr(f.src.profile)
    case PlayerId => Str(f.src.id)
    case Problems => Obj(problemsRef)
    case UrlState => Obj(urlStateRef)
    case Messages => Obj(f.out.messagesRef)
    case TotalBytesReceived => Num(0.0)
    case CurrentTime => Obj(f.currentTime.GetOr(f.src.start).ref)
    case StartTime => Obj(f.src.start.ref)
    case EndTime => Obj(f.src.end.ref)
    case IsPlaying => Bool(f.isPlaying)
    case Speed => Num(f.speed)
    case LastSeekTime => Num(f.lastSeekEmitTime as real)
    case Topics => Obj(f.src.topicsRef)
    case TopicStats => Obj(f.src.topicStatsRef)
    case Datatypes => Obj(f.src.datatypesRef)
    case PublishedTopics => Obj(f.src.publishedTopicsRef)
    case _ => Undefined
  }

  /** The full snapshot of the fields: every property of `SnapshotKeys`. */
  function Snapshot(f: WorkerFields, problemsRef: nat, urlStateRef: nat): (s: map<Key, Val>)
    ensures s.Keys == set k | k in SnapshotKeys
  {
    forall k ensures k in SnapshotKeys <==> InSnapshot(k) {
      SnapshotKeysSpec(k);
    }
    map k: Key | InSnapshot(k) :: SnapshotVal(f, problemsRef, urlStateRef, k)
  }

  /** The payload sent once an error is raised: presence ERROR and new progress, problem and URL objects. */
  function ErrorPayload(f: WorkerFields, ref: nat): (p: map<Key, Val>)
    ensures p.Keys == TopKeys && p[Presence] == PresenceVal(Error)
  {
    map[
      Name := OptStr(f.src.name),
      Presence := PresenceVal(Error),
      Progress := Obj(ref),
      Capabilities := Obj(f.src.capabilitiesRef),
      Profile := OptStr(f.src.profile),
      PlayerId := Str(f.src.id),
      Problems := Obj(ref + 1),
      UrlState := Obj(ref + 2)]
  }

  /**
   * `_emitStateImpl`: nothing without a listener or once the error payload
   * went out; the error payload once when an error is flagged; otherwise the
   * properties of the snapshot that differ from the previous one, after
   * which the pending messages start over from a new empty array.
   */
  function Emit(f: WorkerFields): (g: WorkerFields)
  {
    if !f.out.hasListener || f.out.hasEmittedError then f
    else if f.hasError then
      f.(out := f.out.(hasEmittedError := true, emitted := f.out.emitted + [Emission(ErrorPayload(f, f.nextRef), [])]),
         nextRef := f.nextRef + 3)
    else EmitDiff(f, Snapshot(f, f.nextRef, f.nextRef + 1))
  }

  /**
   * What an emission does: nothing without a listener or after the error
   * payload; otherwise exactly one more emission, the error payload when an
   * error is flagged, else the pending batch with the diff against the
   * previous snapshot, after which the pending messages are empty. The
   * playback fields stay as they were.
   */
  lemma EmitSpec(f: WorkerFields)
    ensures var g := Emit(f);
            && (!f.out.hasListener || f.out.hasEmittedError ==> g == f)
            && (f.out.hasListener && !f.out.hasEmittedError ==> |g.out.emitted| == |f.out.emitted| + 1)
            && (f.out.hasListener && !f.out.hasEmittedError && f.hasError ==> g.out.hasEmittedError)
            && (f.out.hasListener && !f.out.hasEmittedError && !f.hasError ==>
                && g.out.messages == [] && g.out.messagesRef >= f.nextRef
                && g.out.emitted[|f.out.emitted|].batch == f.out.messages
                && g.out.prevState.Some?
                && g.out.emitted[|f.out.emitted|].partial == Changed(f.out.prevState, g.out.prevState.value))
            && (g.nextState == f.nextState && g.cursor == f.cursor && g.lastMessage == f.lastMessage)
            && (g.problems == f.problems && g.currentTime == f.currentTime && g.untilTime == f.untilTime)
            && (g.isPlaying == f.isPlaying && g.hasError == f.hasError && g.abortActive == f.abortActive)
            && (g.subs.allTopicsRef == f.subs.allTopicsRef && g.src.initialized == f.src.initialized && g.seekTarget == f.seekTarget)
            && (g.presence == f.presence && g.src.start == f.src.start && g.src.end == f.src.end && g.subs.allTopics == f.subs.allTopics)
            && Steady(f, g)
  {
  }

  /** The snapshot branch of `Emit`, for the snapshot `snap` of `f`. */
  function EmitDiff(f: WorkerFields, snap: map<Key, Val>): WorkerFields {
    f.(out := f.out.(messages := [], messagesRef := f.nextRef + 2, prevState := Some(snap),
                     emitted := f.out.emitted + [Emission(Changed(f.out.prevState, snap), f.out.messages)]),
       nextRef := f.nextRef + 3)
  }

  // ---------------------------------------------------------------- commands



  /**
   * `seekPlayback`: the target is clamped into [start, end]; nothing happens
   * when a seek to that instant is in flight or playback is already there;
   * otherwise the target is recorded, any play-until is dropped and a
   * seek-backfill is requested.
   */
  function SeekPlayback(f: WorkerFields, time: nat): (g: WorkerFields)
    ensures var target := ClampTime(time, f.src.start.ns, f.src.end.ns);
            if (f.seekTarget.Some? && f.seekTarget.value.ns == target)
               || (f.currentTime.Some? && f.currentTime.value.ns == target)
            then g == f
            else && g.seekTarget.Some? && g.seekTarget.value.ns == target
                 && g.untilTime.None? && g.nextState == Some(SeekBackfill)
                 && g.isPlaying == f.isPlaying && g.currentTime == f.currentTime
    ensures Kept(f, g)
  {
    var target := ClampTime(time, f.src.start.ns, f.src.end.ns);
    if f.seekTarget.Some? && f.seekTarget.value.ns == target then f
    else if f.currentTime.Some? && f.currentTime.value.ns == target then f
    else Requested(f.(seekTarget := Some(TimeObj(target, f.nextRef)), untilTime := None, nextRef := f.nextRef + 1), SeekBackfill)
  }

  /**
   * `pausePlayback`: nothing unless playing; otherwise playing stops, any
   * play-until is dropped, and idle is requested only from the play state.
   */
  function PausePlayback(f: WorkerFields): (g: WorkerFields)
    ensures !f.isPlaying ==> g == f
    ensures f.isPlaying ==> !g.isPlaying && g.untilTime.None?
    ensures f.isPlaying && f.state == Play ==> g.nextState == Some(Idle)
    ensures f.state != Play ==> g.nextState == f.nextState && g.cursor == f.cursor
    ensures g.currentTime == f.currentTime && g.seekTarget == f.seekTarget
    ensures Kept(f, g)
  {
    if !f.isPlaying then f
    else
      var h := f.(isPlaying := false, untilTime := None);
      if f.state == Play then Requested(h, Idle) else h
  }

  /**
   * `startPlay`: nothing while playing or while a play-until is pending; a
   * play-until not after the current time throws; otherwise the play-until
   * is clamped into [start, end], playing starts, and play is requested only
   * from idle with nothing but idle pending.
   */
  function StartPlayback(f: WorkerFields, until: Option<nat>): (n: Next)
    ensures f.isPlaying || f.untilTime.Some? ==> n == Next(f, Pass)
    ensures (!f.isPlaying && f.untilTime.None? && until.Some? && f.currentTime.Some?
             && until.value <= f.currentTime.value.ns) ==> n == Next(f, Fail(PlayUntilMessage))
    ensures n.outcome.Pass? && !f.isPlaying && f.untilTime.None? ==>
              && n.f.isPlaying
              && (until.Some? ==> n.f.untilTime.Some? && n.f.untilTime.value.ns == ClampTime(until.value, f.src.start.ns, f.src.end.ns))
              && (until.None? ==> n.f.untilTime.None?)
              && n.f.nextState == if f.state == Idle && (f.nextState.None? || f.nextState == Some(Idle))
                                  then Some(Play) else f.nextState
    ensures Kept(f, n.f)
  {
    if f.isPlaying || f.untilTime.Some? then Next(f, Pass)
    else if until.Some? && f.currentTime.Some? && until.value <= f.currentTime.value.ns then
      Next(f, Fail(PlayUntilMessage))
    else
      var h := if until.Some?
               then f.(untilTime := Some(TimeObj(ClampTime(until.value, f.src.start.ns, f.src.end.ns), f.nextRef)), nextRef := f.nextRef + 1)
               else f;
      var p := h.(isPlaying := true);
      if f.state == Idle && (f.nextState.None? || f.nextState == Some(Idle)) then Next(Requested(p, Play), Pass)
      else Next(p, Pass)
  }

  /** Every subscribed topic. */
  function TopicsOf(subs: seq<Subscription>): set<string> {
    set i | 0 <= i < |subs| :: subs[i].topic
  }

  /** The topics of the subscriptions whose preload type is not "partial" (what `_partialTopics` holds). */
  function NonPartialTopicsOf(subs: seq<Subscription>): set<string> {
    set i | 0 <= i < |subs| && subs[i].preloadType != Some(PartialPreload) :: subs[i].topic
  }

  /**
   * `setSubscriptions`: stores the subscriptions; when neither topic set
   * changes by value nothing else happens; otherwise both sets are replaced
   * (the topic set by a new object), and from idle, seek-backfill or play,
   * when paused at a known time, a seek-backfill to the current time is
   * requested.
   */
  function SetSubscriptions(f: WorkerFields, subs: seq<Subscription>): (g: WorkerFields)
    ensures g.subs.subscriptions == subs
    ensures TopicsOf(subs) == f.subs.allTopics && NonPartialTopicsOf(subs) == f.subs.partialTopics ==>
              g == f.(subs := f.subs.(subscriptions := subs))
    ensures !(TopicsOf(subs) == f.subs.allTopics && NonPartialTopicsOf(subs) == f.subs.partialTopics) ==>
              && g.subs.allTopics == TopicsOf(subs) && g.subs.partialTopics == NonPartialTopicsOf(subs)
              && g.subs.allTopicsRef >= f.nextRef
              && g.nextState == (if (f.state == Idle || f.state == SeekBackfill || f.state == Play)
                                    && !f.isPlaying && f.currentTime.Some?
                                 then Some(SeekBackfill) else f.nextState)
              && (g.nextState != f.nextState ==> g.seekTarget == f.currentTime && g.untilTime.None?)
    ensures Kept(f, g)
  {
    var all := TopicsOf(subs);
    var nonPartial := NonPartialTopicsOf(subs);
    var h := f.(subs := f.subs.(subscriptions := subs));
    if all == f.subs.allTopics && nonPartial == f.subs.partialTopics then h
    else
      var t := h.(subs := Subscribed(subs, all, f.nextRef, nonPartial), nextRef := f.nextRef + 1);
      if (f.state == Idle || f.state == SeekBackfill || f.state == Play) && !f.isPlaying && f.currentTime.Some? then
        Requested(t.(seekTarget := f.currentTime, untilTime := None), SeekBackfill)
      else t
  }

  /** `setPlaybackSpeed`: stores the speed and emits. */
  function SetPlaybackSpeed(f: WorkerFields, speed: real): (g: WorkerFields)
    ensures g.speed == speed
    ensures g.nextState == f.nextState && g.cursor == f.cursor
    ensures Kept(f, g)
  {
    Emit(f.(speed := speed))
  }

  /**
   * What commands leave alone: a pending state stays pending, and with none
   * pending the iterator stays; the carried message, the problems, the source,
   * the error flag and the listener stay; once the error payload went out
   * nothing more is emitted; a current time, once set, stays set.
   */
  predicate Kept(f: WorkerFields, g: WorkerFields) {
    && (f.nextState.Some? ==> g.nextState.Some?)
    && (g.nextState.None? ==> g.cursor == f.cursor)
    && g.lastMessage == f.lastMessage && g.problems == f.problems && g.src == f.src && g.hasError == f.hasError
    && g.presence == f.presence
    && g.out.hasListener == f.out.hasListener
    && (f.out.hasEmittedError ==> g.out.hasEmittedError && g.out.emitted == f.out.emitted)
    && (g.currentTime.None? ==> f.currentTime.None?)
    && Steady(f, g)
  }

  lemma KeptTrans(f: WorkerFields, g: WorkerFields, h: WorkerFields)
    requires Kept(f, g) && Kept(g, h)
    ensures Kept(f, h)
  {
  }

  /**
   * One command. An error `startPlay` throws goes back to its caller and
   * leaves the worker as it was. No command clears a pending state, and one
   * that leaves no state pending keeps the iterator, the carried message and
   * the problems.
   */
  function Apply(f: WorkerFields, c: Command): (g: WorkerFields)
    ensures Kept(f, g)
  {
    match c
    case SeekCmd(t) => SeekPlayback(f, t)
    case PauseCmd => PausePlayback(f)
    case PlayCmd(u) => StartPlayback(f, u).f
    case SubscribeCmd(subs) => SetSubscriptions(f, subs)
  }

  /** The commands in turn. */
  function ApplyAll(f: WorkerFields, cs: seq<Command>): (g: WorkerFields)
    ensures Kept(f, g)
    decreases |cs|
  {
    if cs == [] then f
    else
      var h := Apply(f, cs[0]);
      var g := ApplyAll(h, cs[1..]);
      KeptTrans(f, h, g);
      g
  }

  // ---------------------------------------------------------------- reading the iterator

  /**
   * The reference reading of a tick ending at `endNs`: problems are skipped,
   * messages are taken up to the first one past the end, which is carried.
   */
  function Scan(rs: seq<IterResult>, endNs: nat): (r: (seq<MessageEvent>, Option<MessageEvent>))
    ensures forall i :: 0 <= i < |r.0| ==> r.0[i].receiveTime <= endNs
    ensures r.1.Some? ==> r.1.value.receiveTime > endNs
    decreases |rs|
  {
    if rs == [] then ([], None)
    else match rs[0]
      case ProblemResult(_, _) => Scan(rs[1..], endNs)
      case Msg(m) =>
        if m.receiveTime > endNs then ([], Some(m))
        else var r := Scan(rs[1..], endNs); ([m] + r.0, r.1)
  }

  /**
   * The problems after the reference reading of a tick ending at `endNs`,
   * from the problems `m`: every problem result before the first message past
   * the end is stored under its connection, a later one over an earlier one
   * of the same connection; no other entry changes.
   */
  function ScanProblems(rs: seq<IterResult>, endNs: nat, m: map<ProblemKey, Problem>): (r: map<ProblemKey, Problem>)
    ensures forall k :: k in m ==> k in r
    ensures forall k :: k in r && !k.ConnId? ==> k in m && r[k] == m[k]
    ensures forall k :: k in m && Untouched(rs, FirstPast(rs, endNs), k) ==> r[k] == m[k]
    ensures forall i :: 0 <= i < FirstPast(rs, endNs) && rs[i].ProblemResult? ==>
              && ConnId(rs[i].connectionId) in r
              && (LastOfConn(rs, i, FirstPast(rs, endNs)) ==> r[ConnId(rs[i].connectionId)] == rs[i].problem)
    decreases |rs|
  {
    if rs == [] then m
    else
      assert forall i :: 1 <= i < |rs| ==> rs[i] == rs[1..][i - 1];
      match rs[0]
      case ProblemResult(id, p) =>
        var r := ScanProblems(rs[1..], endNs, m[ConnId(id) := p]);
        assert LastOfConn(rs, 0, FirstPast(rs, endNs)) ==> Untouched(rs[1..], FirstPast(rs[1..], endNs), ConnId(id));
        assert forall k :: Untouched(rs, FirstPast(rs, endNs), k) ==> Untouched(rs[1..], FirstPast(rs[1..], endNs), k);
        assert forall i :: 1 <= i < FirstPast(rs, endNs) && rs[i].ProblemResult? && LastOfConn(rs, i, FirstPast(rs, endNs)) ==>
                 LastOfConn(rs[1..], i - 1, FirstPast(rs[1..], endNs));
        r
      case Msg(e) =>
        if e.receiveTime > endNs then m
        else
          var r := ScanProblems(rs[1..], endNs, m);
          assert forall k :: Untouched(rs, FirstPast(rs, endNs), k) ==> Untouched(rs[1..], FirstPast(rs[1..], endNs), k);
          assert forall i :: 1 <= i < FirstPast(rs, endNs) && rs[i].ProblemResult? && LastOfConn(rs, i, FirstPast(rs, endNs)) ==>
                   LastOfConn(rs[1..], i - 1, FirstPast(rs[1..], endNs));
          r
  }

  /** Whether the problem result at `i` is the last one of its connection before `n`. */
  predicate LastOfConn(rs: seq<IterResult>, i: nat, n: nat)
    requires i < n <= |rs| && rs[i].ProblemResult?
  {
    forall j :: i < j < n && rs[j].ProblemResult? ==> rs[j].connectionId != rs[i].connectionId
  }

  /** Whether no problem result before `n` is stored under the key `k`. */
  predicate Untouched(rs: seq<IterResult>, n: nat, k: ProblemKey)
    requires n <= |rs|
  {
    forall j :: 0 <= j < n && rs[j].ProblemResult? ==> ConnId(rs[j].connectionId) != k
  }

  /** The scan from position `pos` on looks at the result there, then goes on after it. */
  lemma ScanAt(items: seq<IterResult>, pos: nat, endNs: nat)
    requires pos < |items|
    ensures var tail := Scan(items[pos + 1..], endNs);
            Scan(items[pos..], endNs) == match items[pos]
              case ProblemResult(_, _) => tail
              case Msg(m) => if m.receiveTime > endNs then ([], Some(m)) else ([m] + tail.0, tail.1)
    ensures forall m :: ScanProblems(items[pos..], endNs, m) == match items[pos]
              case ProblemResult(id, p) => ScanProblems(items[pos + 1..], endNs, m[ConnId(id) := p])
              case Msg(e) => if e.receiveTime > endNs then m else ScanProblems(items[pos + 1..], endNs, m)
  {
    assert items[pos..][0] == items[pos] && items[pos..][1..] == items[pos + 1..];
  }

  /** The messages among the results, in order. */
  function MsgsOf(rs: seq<IterResult>): seq<MessageEvent>
    decreases |rs|
  {
    if rs == [] then [] else (if rs[0].Msg? then [rs[0].event] else []) + MsgsOf(rs[1..])
  }

  /** The index of the first message past the end, or the length when there is none. */
  function FirstPast(rs: seq<IterResult>, endNs: nat): (i: nat)
    ensures i <= |rs|
    ensures i < |rs| ==> rs[i].Msg? && rs[i].event.receiveTime > endNs
    ensures forall j :: 0 <= j < i && rs[j].Msg? ==> rs[j].event.receiveTime <= endNs
    decreases |rs|
  {
    if rs == [] then 0
    else if rs[0].Msg? && rs[0].event.receiveTime > endNs then 0
    else
      var i := 1 + FirstPast(rs[1..], endNs);
      assert forall j :: 1 <= j < i ==> rs[j] == rs[1..][j - 1];
      i
  }

  /**
   * A scan takes, in iterator order, the messages before the first one past
   * the end, and carries that one when there is one.
   */
  lemma {:induction false} ScanIsPrefix(rs: seq<IterResult>, endNs: nat)
    ensures var i := FirstPast(rs, endNs);
            && Scan(rs, endNs).0 == MsgsOf(rs[..i])
            && Scan(rs, endNs).1 == (if i < |rs| then Some(rs[i].event) else None)
    decreases |rs|
  {
    if rs != [] && !(rs[0].Msg? && rs[0].event.receiveTime > endNs) {
      ScanIsPrefix(rs[1..], endNs);
      var i := FirstPast(rs, endNs);
      assert rs[..i][0] == rs[0] && rs[..i][1..] == rs[1..][..i - 1];
    }
  }

  /** What a read loop changes between commands: the iterator, the problems and the carried message. */
  datatype Reader = Reader(cursor: Option<Cursor>, problems: map<ProblemKey, Problem>, lastMessage: Option<MessageEvent>)

  function ReaderOf(f: WorkerFields): Reader {
    Reader(f.cursor, f.problems, f.lastMessage)
  }

  function WithReader(f: WorkerFields, rd: Reader): (g: WorkerFields)
    ensures Steady(f, g) && ReaderOf(g) == rd
  {
    f.(cursor := rd.cursor, problems := rd.problems, lastMessage := rd.lastMessage)
  }

  /** The number of results still to read. */
  function Remaining(rd: Reader): nat {
    if rd.cursor.Some? && rd.cursor.value.pos < |rd.cursor.value.items|
    then |rd.cursor.value.items| - rd.cursor.value.pos else 0
  }

  /** The iterator advanced past one result, when one is left. */
  function Advance(rd: Reader): (r: Reader)
    requires rd.cursor.Some?
    ensures r.cursor.Some? && r.problems == rd.problems && r.lastMessage == rd.lastMessage
  {
    var c := rd.cursor.value;
    if c.pos < |c.items| then rd.(cursor := Some(c.(pos := c.pos + 1))) else rd
  }

  /**
   * The commands arriving at read `k`, when it is the arrival's; the fields
   * before them are `w` with the reader `rd`.
   */
  function Arrive(w: WorkerFields, rd: Reader, arrival: Arrival, k: nat): (r: (WorkerFields, Reader))
    ensures Steady(w, r.0)
    ensures r.0.nextState.None? ==> r.1.cursor == rd.cursor
    ensures w.nextState.Some? ==> r.0.nextState.Some?
    ensures r.1.problems == rd.problems && r.1.lastMessage == rd.lastMessage
    ensures r.0.currentTime.None? ==> w.currentTime.None?
  {
    if k == arrival.at then
      var g := ApplyAll(WithReader(w, rd), arrival.commands);
      SteadyTrans(w, WithReader(w, rd), g);
      (g, ReaderOf(g))
    else (w, rd)
  }

  /** The outcome of a read loop: the fields, the batch, and whether the state bailed out. */
  datatype ReadOut = ReadOut(f: WorkerFields, batch: seq<MessageEvent>, bailed: bool, outcome: Outcome)

  /** One pass of a read loop: the loop ends with its outcome, or goes on with these fields, reader and batch. */
  datatype ReadStep = Done(out: ReadOut) | Continue(w: WorkerFields, rd: Reader, acc: seq<MessageEvent>)

  /**
   * One pass of the read loop of `_tick`, read number `k`, with batch `acc`,
   * on the fields `w` with the reader `rd`: the read advances the iterator;
   * a finished iterator or a pending state ends the loop; a problem is stored
   * under its connection; a message past the end is carried to the next tick
   * and ends the loop.
   */
  function TickStep(w: WorkerFields, rd: Reader, endNs: nat, acc: seq<MessageEvent>, arrival: Arrival, k: nat): (s: ReadStep)
    ensures s.Done? ==> Steady(w, s.out.f) && (s.out.f.currentTime.None? ==> w.currentTime.None?)
    ensures s.Continue? ==> Steady(w, s.w) && (s.w.currentTime.None? ==> w.currentTime.None?)
    ensures s.Continue? ==> Remaining(s.rd) < Remaining(rd)
  {
    if rd.cursor.None? then Done(ReadOut(WithReader(w, rd), acc, false, Fail(NoIteratorMessage)))
    else
      var c := rd.cursor.value;
      var a := Arrive(w, Advance(rd), arrival, k);
      if c.pos >= |c.items| || a.0.nextState.Some? then Done(ReadOut(WithReader(a.0, a.1), acc, false, Pass))
      else
        match c.items[c.pos]
        case ProblemResult(id, p) => Continue(a.0, a.1.(problems := a.1.problems[ConnId(id) := p]), acc)
        case Msg(m) =>
          if m.receiveTime > endNs then Done(ReadOut(WithReader(a.0, a.1.(lastMessage := Some(m))), acc, false, Pass))
          else Continue(a.0, a.1, acc + [m])
  }

  /** The read loop of `_tick` from read number `k` on: its passes, in turn, until one ends it. */
  function TickRead(w: WorkerFields, rd: Reader, endNs: nat, acc: seq<MessageEvent>, arrival: Arrival, k: nat): (r: ReadOut)
    ensures Steady(w, r.f)
    ensures r.f.currentTime.None? ==> w.currentTime.None?
    decreases Remaining(rd)
  {
    match TickStep(w, rd, endNs, acc, arrival, k)
    case Done(o) => o
    case Continue(w2, rd2, acc2) =>
      var r := TickRead(w2, rd2, endNs, acc2, arrival, k + 1);
      SteadyTrans(w, w2, r.f);
      r
  }

  /**
   * A tick's read loop that ends with no state pending has taken exactly what
   * the reference scan of the unread results takes, and carries what it
   * carries.
   */
  lemma {:induction false} TickReadScan(w: WorkerFields, rd: Reader, endNs: nat, acc: seq<MessageEvent>, arrival: Arrival, k: nat)
    requires rd.cursor.Some? && rd.cursor.value.pos <= |rd.cursor.value.items|
    ensures var r := TickRead(w, rd, endNs, acc, arrival, k);
            var s := Scan(rd.cursor.value.items[rd.cursor.value.pos..], endNs);
            r.outcome.Pass? && r.f.nextState.None? ==>
              && r.batch == acc + s.0 && r.f.lastMessage == (if s.1.Some? then s.1 else rd.lastMessage)
              && r.f.problems == ScanProblems(rd.cursor.value.items[rd.cursor.value.pos..], endNs, rd.problems)
    decreases Remaining(rd)
  {
    var c := rd.cursor.value;
    if c.pos < |c.items| {
      ScanAt(c.items, c.pos, endNs);
    } else {
      assert c.items[c.pos..] == [];
    }
    match TickStep(w, rd, endNs, acc, arrival, k)
    case Done(_) =>
    case Continue(w2, rd2, acc2) =>
      TickReadScan(w2, rd2, endNs, acc2, arrival, k + 1);
      var tail := c.items[c.pos + 1..];
      assert rd2.cursor.value.items[rd2.cursor.value.pos..] == tail;
      if c.items[c.pos].Msg? {
        assert acc2 + Scan(tail, endNs).0 == acc + ([c.items[c.pos].event] + Scan(tail, endNs).0);
      }
  }

  /**
   * One pass of the read loop of `_stateStartPlay`: like a tick's, except
   * that a finished iterator is checked before a pending state, and a
   * pending state makes the whole state bail out without committing
   * anything.
   */
  function StartStep(w: WorkerFields, rd: Reader, stopNs: nat, acc: seq<MessageEvent>, arrival: Arrival, k: nat): (s: ReadStep)
    ensures s.Done? ==> Steady(w, s.out.f) && (s.out.f.currentTime.None? ==> w.currentTime.None?)
    ensures s.Continue? ==> Steady(w, s.w) && (s.w.currentTime.None? ==> w.currentTime.None?)
    ensures s.Continue? ==> Remaining(s.rd) < Remaining(rd)
  {
    if rd.cursor.None? then Done(ReadOut(WithReader(w, rd), acc, false, Fail(NoIteratorMessage)))
    else
      var c := rd.cursor.value;
      var a := Arrive(w, Advance(rd), arrival, k);
      if c.pos >= |c.items| then Done(ReadOut(WithReader(a.0, a.1), acc, false, Pass))
      else if a.0.nextState.Some? then Done(ReadOut(WithReader(a.0, a.1), acc, true, Pass))
      else
        match c.items[c.pos]
        case ProblemResult(id, p) => Continue(a.0, a.1.(problems := a.1.problems[ConnId(id) := p]), acc)
        case Msg(m) =>
          if m.receiveTime > stopNs then Done(ReadOut(WithReader(a.0, a.1.(lastMessage := Some(m))), acc, false, Pass))
          else Continue(a.0, a.1, acc + [m])
  }

  /** The read loop of `_stateStartPlay` from read number `k` on. */
  function StartRead(w: WorkerFields, rd: Reader, stopNs: nat, acc: seq<MessageEvent>, arrival: Arrival, k: nat): (r: ReadOut)
    ensures Steady(w, r.f)
    ensures r.f.currentTime.None? ==> w.currentTime.None?
    decreases Remaining(rd)
  {
    match StartStep(w, rd, stopNs, acc, arrival, k)
    case Done(o) => o
    case Continue(w2, rd2, acc2) =>
      var r := StartRead(w2, rd2, stopNs, acc2, arrival, k + 1);
      SteadyTrans(w, w2, r.f);
      r
  }

  /**
   * The first read of start-play, when it neither bails out nor leaves a
   * state pending, has taken what the reference scan takes up to the stop
   * time and carries what it carries.
   */
  lemma {:induction false} StartReadScan(w: WorkerFields, rd: Reader, stopNs: nat, acc: seq<MessageEvent>, arrival: Arrival, k: nat)
    requires rd.cursor.Some? && rd.cursor.value.pos <= |rd.cursor.value.items| && w.nextState.None?
    ensures var r := StartRead(w, rd, stopNs, acc, arrival, k);
            var s := Scan(rd.cursor.value.items[rd.cursor.value.pos..], stopNs);
            r.outcome.Pass? && !r.bailed && r.f.nextState.None? ==>
              && r.batch == acc + s.0 && r.f.lastMessage == (if s.1.Some? then s.1 else rd.lastMessage)
              && r.f.problems == ScanProblems(rd.cursor.value.items[rd.cursor.value.pos..], stopNs, rd.problems)
    decreases Remaining(rd)
  {
    var c := rd.cursor.value;
    if c.pos < |c.items| {
      ScanAt(c.items, c.pos, stopNs);
    } else {
      assert c.items[c.pos..] == [];
    }
    match StartStep(w, rd, stopNs, acc, arrival, k)
    case Done(_) =>
    case Continue(w2, rd2, acc2) =>
      StartReadScan(w2, rd2, stopNs, acc2, arrival, k + 1);
      var tail := c.items[c.pos + 1..];
      assert rd2.cursor.value.items[rd2.cursor.value.pos..] == tail;
      if c.items[c.pos].Msg? {
        assert acc2 + Scan(tail, stopNs).0 == acc + ([c.items[c.pos].event] + Scan(tail, stopNs).0);
      }
  }

  // ---------------------------------------------------------------- _tick

  /** The inclusive end of a tick: `clampTime(currentTime + range, start, untilTime ?? end)`. */
  function TickEnd(f: WorkerFields, rangeNs: nat): nat
    requires f.currentTime.Some?
  {
    ClampTime(f.currentTime.value.ns + rangeNs, f.src.start.ns, f.untilTime.GetOr(f.src.end).ns)
  }

  /** A tick's commit: the current time moves to the tick end, the batch is emitted, and playback pauses at the play-until. */
  function CommitTick(f: WorkerFields, endObj: TimeObj, batch: seq<MessageEvent>): (g: WorkerFields)
    ensures g.currentTime == Some(endObj) && g.lastMessage == f.lastMessage && g.problems == f.problems
    ensures f.out.hasListener && !f.out.hasEmittedError && !f.hasError ==>
              |g.out.emitted| == |f.out.emitted| + 1 && g.out.emitted[|f.out.emitted|].batch == batch
    ensures f.untilTime.Some? && endObj.ns >= f.untilTime.value.ns && f.isPlaying ==> !g.isPlaying && g.untilTime.None?
    ensures Steady(f, g)
  {
    var e := Emit(TickStaged(f, endObj, batch));
    EmitSpec(TickStaged(f, endObj, batch));
    if e.untilTime.Some? && endObj.ns >= e.untilTime.value.ns then PausePlayback(e) else e
  }

  /** A tick's commit before its emission: the current time is the tick end and the batch is pending in a new array. */
  function TickStaged(f: WorkerFields, endObj: TimeObj, batch: seq<MessageEvent>): WorkerFields {
    f.(currentTime := Some(endObj), out := f.out.(messages := batch, messagesRef := f.nextRef), nextRef := f.nextRef + 1)
  }

  /**
   * `_tick`, with the range to read given (the wall-clock smoothing of the
   * source decides it): nothing unless playing. A carried message past this
   * tick's end leaves the batch empty; otherwise it leads the batch, and the
   * iterator is read up to the end. The batch is dropped when a state became
   * pending meanwhile.
   */
  function Tick(f: WorkerFields, rangeNs: nat, during: Arrival): (n: Next)
    ensures Steady(f, n.f)
    ensures !f.isPlaying ==> n == Next(f, Pass)
    ensures f.isPlaying && f.currentTime.None? ==> n == Next(f, Fail(TickNoTimeMessage))
    ensures n.f.currentTime.None? ==> f.currentTime.None?
  {
    if !f.isPlaying then Next(f, Pass)
    else if f.currentTime.None? then Next(f, Fail(TickNoTimeMessage))
    else
      var endNs := TickEnd(f, rangeNs);
      var endObj := TimeObj(endNs, f.nextRef);
      TickTo(f.(nextRef := f.nextRef + 1), endObj, during)
  }

  /** `_tick` once its end `endObj` is known: a carried message past the end commits an empty batch, otherwise the iterator is read. */
  function TickTo(f: WorkerFields, endObj: TimeObj, during: Arrival): (n: Next)
    ensures Steady(f, n.f)
    ensures n.f.currentTime.None? ==> f.currentTime.None?
  {
    if f.lastMessage.Some? && f.lastMessage.value.receiveTime > endObj.ns then
      Next(CommitTick(f, endObj, []), Pass)
    else TickBatch(f, endObj, during)
  }

  /**
   * The reading half of `_tick`, up to the tick end `endObj`: the carried
   * message leads the batch, the iterator is read up to the end, the player
   * is present again, and the batch is committed unless a state became
   * pending meanwhile.
   */
  function TickBatch(f: WorkerFields, endObj: TimeObj, during: Arrival): (n: Next)
    ensures Steady(f, n.f)
    ensures n.f.currentTime.None? ==> f.currentTime.None?
  {
    var carried := if f.lastMessage.Some? then [f.lastMessage.value] else [];
    var r := TickRead(f, Reader(f.cursor, f.problems, None), endObj.ns, carried, during, 0);
    if r.outcome.Fail? then Next(r.f, r.outcome)
    else
      var g := r.f.(presence := Present);
      if g.nextState.Some? then Next(g, Pass)
      else Next(CommitTick(g, endObj, r.batch), Pass)
  }

  /**
   * A committed tick: the current time is the clamped tick end, and the batch
   * emitted is the carried message (when not past the end) followed by what
   * the reference scan takes from the rest of the iterator; the first message
   * past the end is carried to the next tick.
   */
  lemma TickCommitted(f: WorkerFields, rangeNs: nat, during: Arrival)
    requires f.isPlaying && f.currentTime.Some? && f.nextState.None?
    requires f.out.hasListener && !f.hasError && !f.out.hasEmittedError
    requires f.cursor.Some? && f.cursor.value.pos <= |f.cursor.value.items|
    requires during.at > |f.cursor.value.items|
    ensures var n := Tick(f, rangeNs, during);
            var endNs := TickEnd(f, rangeNs);
            var s := Scan(f.cursor.value.items[f.cursor.value.pos..], endNs);
            && n.outcome.Pass?
            && n.f.currentTime.Some? && n.f.currentTime.value.ns == endNs
            && |n.f.out.emitted| == |f.out.emitted| + 1
            && n.f.out.emitted[|f.out.emitted|].batch ==
                 (if f.lastMessage.Some? && f.lastMessage.value.receiveTime > endNs then []
                  else (if f.lastMessage.Some? then [f.lastMessage.value] else []) + s.0)
            && (f.lastMessage.None? || f.lastMessage.value.receiveTime <= endNs ==>
                  && n.f.lastMessage == s.1
                  && n.f.problems == ScanProblems(f.cursor.value.items[f.cursor.value.pos..], endNs, f.problems))
  {
    var endNs := TickEnd(f, rangeNs);
    var f1 := f.(nextRef := f.nextRef + 1);
    if !(f1.lastMessage.Some? && f1.lastMessage.value.receiveTime > endNs) {
      var carried := if f1.lastMessage.Some? then [f1.lastMessage.value] else [];
      var rd := Reader(f1.cursor, f1.problems, None);
      TickReadUninterrupted(f1, rd, endNs, carried, during, 0);
      TickReadScan(f1, rd, endNs, carried, during, 0);
    }
  }

  /** Without commands arriving during the reads, the read loop runs to its natural end. */
  lemma {:induction false} TickReadUninterrupted(w: WorkerFields, rd: Reader, endNs: nat, acc: seq<MessageEvent>, arrival: Arrival, k: nat)
    requires rd.cursor.Some? && rd.cursor.value.pos <= |rd.cursor.value.items| && w.nextState.None?
    requires arrival.at > k + |rd.cursor.value.items| - rd.cursor.value.pos
    ensures var r := TickRead(w, rd, endNs, acc, arrival, k);
            && r.outcome.Pass? && r.f.nextState.None? && r.f.out == w.out
            && r.f.hasError == w.hasError && r.f.isPlaying == w.isPlaying && r.f.untilTime == w.untilTime
    decreases Remaining(rd)
  {
    var c := rd.cursor.value;
    if c.pos < |c.items| {
      var rd1 := Advance(rd);
      match c.items[c.pos]
      case ProblemResult(id, p) =>
        TickReadUninterrupted(w, rd1.(problems := rd1.problems[ConnId(id) := p]), endNs, acc, arrival, k + 1);
      case Msg(m) =>
        if m.receiveTime <= endNs {
          TickReadUninterrupted(w, rd1, endNs, acc + [m], arrival, k + 1);
        }
    }
  }

  // ---------------------------------------------------------------- the states

  /**
   * `_stateStartPlay`: opens the iterator at the start over every subscribed
   * topic, reads the first 99 ms, and unless a state became pending commits
   * them at that instant and requests idle.
   */
  function StateStartPlay(f: WorkerFields, opening: seq<IterResult>, during: Arrival): (n: Next)
    ensures Steady(f, n.f)
    ensures !f.src.initialized ==> n == Next(f, Fail(UninitializedMessage))
    ensures f.src.initialized && f.cursor.Some? ==> n == Next(f, Fail(IteratorSetMessage))
    ensures n.f.currentTime.None? ==> f.currentTime.None?
  {
    if !f.src.initialized then Next(f, Fail(UninitializedMessage))
    else if f.cursor.Some? then Next(f, Fail(IteratorSetMessage))
    else StartPlayFrom(f, opening, during)
  }

  /**
   * `_stateStartPlay` once its checks pass: the iterator opens at the start,
   * the pending messages start over, and the first read runs up to the stop
   * time, the start plus the seek-on-start span clamped to the recording.
   */
  function StartPlayFrom(f: WorkerFields, opening: seq<IterResult>, during: Arrival): (n: Next)
    ensures Steady(f, n.f)
    ensures n.f.currentTime.None? ==> f.currentTime.None?
  {
    var stopNs := ClampTime(f.src.start.ns + SEEK_ON_START_NS, f.src.start.ns, f.src.end.ns);
    var stopObj := TimeObj(stopNs, f.nextRef);
    var f1 := f.(out := f.out.(messages := [], messagesRef := f.nextRef + 1), nextRef := f.nextRef + 2);
    var n := StartPlayRead(f1, Reader(Some(Cursor(f.subs.allTopics, f.src.start.ns, opening, 0)), f.problems, None),
                           stopObj, during);
    SteadyTrans(f, f1, n.f);
    n
  }

  /**
   * The reading half of `_stateStartPlay`, on the fields `f` with the opened
   * reader `rd`: the first read up to the stop time, committed unless it
   * failed or bailed out.
   */
  function StartPlayRead(f: WorkerFields, rd: Reader, stopObj: TimeObj, during: Arrival): (n: Next)
    ensures Steady(f, n.f)
    ensures n.f.currentTime.None? ==> f.currentTime.None?
  {
    var r := StartRead(f, rd, stopObj.ns, [], during, 0);
    if r.outcome.Fail? then Next(r.f, r.outcome)
    else if r.bailed then Next(r.f, Pass)
    else
      var h := CommitStart(r.f, stopObj, r.batch);
      SteadyTrans(f, r.f, h);
      Next(h, Pass)
  }

  /** The end of `_stateStartPlay`: the first batch is committed at the stop time, the player is present, and idle is requested. */
  function CommitStart(f: WorkerFields, stopObj: TimeObj, batch: seq<MessageEvent>): (g: WorkerFields)
    ensures Steady(f, g)
    ensures g.currentTime == Some(stopObj) && g.presence == Present && g.nextState == Some(Idle)
    ensures f.out.hasListener && !f.out.hasEmittedError && !f.hasError ==>
              |g.out.emitted| == |f.out.emitted| + 1 && g.out.emitted[|f.out.emitted|].batch == batch
    ensures g.cursor == f.cursor && g.lastMessage == f.lastMessage && g.problems == f.problems
  {
    EmitSpec(StartStaged(f, stopObj, batch));
    Requested(Emit(StartStaged(f, stopObj, batch)), Idle)
  }

  /** The first batch before its emission: the current time is the stop time, the player present, the batch pending in a new array. */
  function StartStaged(f: WorkerFields, stopObj: TimeObj, batch: seq<MessageEvent>): WorkerFields {
    f.(currentTime := Some(stopObj), out := f.out.(messages := batch, messagesRef := f.nextRef),
       presence := Present, nextRef := f.nextRef + 1)
  }

  /**
   * Without commands arriving during its reads, the first read of start-play
   * runs to its natural end without bailing out, and changes nothing but the
   * iterator position, the problems and the carried message.
   */
  lemma {:induction false} StartReadUninterrupted(w: WorkerFields, rd: Reader, stopNs: nat, acc: seq<MessageEvent>, arrival: Arrival, k: nat)
    requires rd.cursor.Some? && rd.cursor.value.pos <= |rd.cursor.value.items| && w.nextState.None?
    requires arrival.at > k + |rd.cursor.value.items| - rd.cursor.value.pos
    ensures var r := StartRead(w, rd, stopNs, acc, arrival, k);
            && r.outcome.Pass? && !r.bailed && r.f == WithReader(w, ReaderOf(r.f))
            && r.f.cursor.Some? && r.f.cursor.value.(pos := 0) == rd.cursor.value.(pos := 0)
    decreases Remaining(rd)
  {
    var c := rd.cursor.value;
    if c.pos < |c.items| {
      var rd1 := Advance(rd);
      match c.items[c.pos]
      case ProblemResult(id, p) =>
        StartReadUninterrupted(w, rd1.(problems := rd1.problems[ConnId(id) := p]), stopNs, acc, arrival, k + 1);
      case Msg(m) =>
        if m.receiveTime <= stopNs {
          StartReadUninterrupted(w, rd1, stopNs, acc + [m], arrival, k + 1);
        }
    }
  }

  /**
   * An uninterrupted start-play on an initialized source opens the iterator
   * at the start of the recording over every subscribed topic, emits exactly
   * what the reference scan takes up to the stop time (the start plus 99 ms,
   * clamped to the recording), carries the first message past it, stores the
   * problems read before it, commits at the stop time and requests idle.
   */
  lemma StartPlayCommitted(f: WorkerFields, opening: seq<IterResult>, during: Arrival)
    requires f.src.initialized && f.cursor.None? && f.nextState.None?
    requires f.out.hasListener && !f.hasError && !f.out.hasEmittedError
    requires during.at > |opening|
    ensures var n := StateStartPlay(f, opening, during);
            var stopNs := ClampTime(f.src.start.ns + SEEK_ON_START_NS, f.src.start.ns, f.src.end.ns);
            var s := Scan(opening, stopNs);
            && n.outcome.Pass?
            && n.f.currentTime.Some? && n.f.currentTime.value.ns == stopNs
            && n.f.presence == Present && n.f.nextState == Some(Idle)
            && n.f.cursor.Some? && n.f.cursor.value.items == opening
            && n.f.cursor.value.topics == f.subs.allTopics && n.f.cursor.value.start == f.src.start.ns
            && |n.f.out.emitted| == |f.out.emitted| + 1
            && n.f.out.emitted[|f.out.emitted|].batch == s.0
            && n.f.lastMessage == s.1
            && n.f.problems == ScanProblems(opening, stopNs, f.problems)
  {
    var stopNs := ClampTime(f.src.start.ns + SEEK_ON_START_NS, f.src.start.ns, f.src.end.ns);
    var f1 := f.(out := f.out.(messages := [], messagesRef := f.nextRef + 1), nextRef := f.nextRef + 2);
    var rd := Reader(Some(Cursor(f.subs.allTopics, f.src.start.ns, opening, 0)), f.problems, None);
    var stopObj := TimeObj(stopNs, f.nextRef);
    assert opening[0..] == opening;
    StartReadUninterrupted(f1, rd, stopNs, [], during, 0);
    StartReadScan(f1, rd, stopNs, [], during, 0);
    var r := StartRead(f1, rd, stopNs, [], during, 0);
    assert StateStartPlay(f, opening, during) == StartPlayRead(f1, rd, stopObj, during);
    assert StartPlayRead(f1, rd, stopObj, during) == Next(CommitStart(r.f, stopObj, r.batch), Pass);
    assert r.f.out == f.out.(messages := [], messagesRef := f.nextRef + 1) && !r.f.hasError;
  }

  /** The idle loop: each round refreshes the progress object and emits, then waits for the commands of the round. */
  function IdleRounds(f: WorkerFields, rounds: seq<seq<Command>>): (g: WorkerFields)
    ensures Steady(f, g)
    ensures g.presence == f.presence && g.src == f.src && g.problems == f.problems
    ensures rounds == [] ==> g.isPlaying == f.isPlaying
    ensures g.currentTime.None? ==> f.currentTime.None?
    decreases |rounds|
  {
    var p := Emit(f.(progressRef := f.nextRef, nextRef := f.nextRef + 1));
    if rounds == [] then p
    else
      var q := ApplyAll(p, rounds[0]);
      SteadyTrans(f, p, q);
      if q.nextState.Some? then q
      else
        var g := IdleRounds(q, rounds[1..]);
        SteadyTrans(f, q, g);
        g
  }

  /**
   * `_stateIdle`: stops playing, marks the player present and emits, then
   * holds an abort controller and idles until a state is requested.
   */
  function StateIdle(f: WorkerFields, rounds: seq<seq<Command>>): (n: Next)
    ensures Steady(f, n.f)
    ensures !f.src.initialized ==> n == Next(f, Fail(UninitializedMessage))
    ensures f.src.initialized ==> n.outcome == (if f.abortActive then Fail(AbortExistsMessage) else Pass)
    ensures n.f.currentTime.None? ==> f.currentTime.None?
    ensures f.src.initialized ==>
              && n.f.presence == Present
              && Emit(f.(isPlaying := false, presence := Present)).out.emitted <= n.f.out.emitted
              && (f.abortActive ==> n.f == Emit(f.(isPlaying := false, presence := Present)))
              && (f.abortActive || rounds == [] ==> !n.f.isPlaying)
  {
    if !f.src.initialized then Next(f, Fail(UninitializedMessage))
    else
      var g := Emit(f.(isPlaying := false, presence := Present));
      if g.abortActive then Next(g, Fail(AbortExistsMessage))
      else
        var h := IdleRounds(g.(abortActive := true), rounds);
        SteadyTrans(f, g, h);
        Next(h, Pass)
  }

  /**
   * `_stateSeekBackfill`: with a seek target, drops the carried message and
   * waits for the backfill; unless a state became pending meanwhile, commits
   * the backfill at the target, reopens the iterator 1 ns after it and
   * requests play or idle. The target is then cleared unless another
   * seek-backfill is pending.
   */
  function StateSeekBackfill(f: WorkerFields, backfill: seq<MessageEvent>, meanwhile: seq<Command>,
                             now: nat, opening: seq<IterResult>): (n: Next)
    ensures Steady(f, n.f)
    ensures !f.src.initialized ==> n == Next(f, Fail(UninitializedMessage))
    ensures f.src.initialized ==> n.outcome.Pass?
    ensures f.src.initialized && f.seekTarget.None? ==> n.f == f
    ensures f.src.initialized && f.seekTarget.Some? ==>
              && n.f.lastMessage.None? && !n.f.abortActive
              && (n.f.nextState != Some(SeekBackfill) ==> n.f.seekTarget.None?)
    ensures f.src.initialized && f.seekTarget.Some? ==>
              var target := f.seekTarget.value;
              var f2 := ApplyAll(f.(lastMessage := None, abortActive := true), meanwhile);
              && (f2.nextState.Some? ==>
                    && n.f.nextState == f2.nextState && n.f.currentTime == f2.currentTime
                    && n.f.cursor == f2.cursor && n.f.out == f2.out && n.f.isPlaying == f2.isPlaying)
              && (f2.nextState.None? ==>
                    && n.f.currentTime == Some(target) && n.f.lastSeekEmitTime == now && n.f.seekTarget.None?
                    && n.f.cursor == Some(Cursor(f2.subs.allTopics, target.ns + 1, opening, 0))
                    && n.f.nextState == Some(if f2.isPlaying then Play else Idle)
                    && (f2.out.hasListener && !f2.out.hasEmittedError && !f2.hasError ==>
                          |n.f.out.emitted| == |f2.out.emitted| + 1 && n.f.out.emitted[|f2.out.emitted|].batch == backfill))
    ensures n.f.currentTime.None? ==> f.currentTime.None?
  {
    if !f.src.initialized then Next(f, Fail(UninitializedMessage))
    else if f.seekTarget.None? then Next(f, Pass)
    else
      var target := f.seekTarget.value;
      var f1 := f.(lastMessage := None, abortActive := true);
      var f2 := ApplyAll(f1, meanwhile);
      var f3 := if f2.nextState.Some? then f2 else Backfilled(f2, target, backfill, now, opening);
      Next(f3.(seekTarget := if f3.nextState != Some(SeekBackfill) then None else f3.seekTarget,
               abortActive := false), Pass)
  }

  /** A completed backfill: committed at the target, iterator reopened 1 ns after it, play or idle requested. */
  function Backfilled(f: WorkerFields, target: TimeObj, backfill: seq<MessageEvent>, now: nat, opening: seq<IterResult>): (g: WorkerFields)
    requires f.lastMessage.None?
    ensures g.currentTime == Some(target) && g.lastSeekEmitTime == now && g.lastMessage.None?
    ensures g.cursor == Some(Cursor(f.subs.allTopics, target.ns + 1, opening, 0))
    ensures g.nextState == Some(if f.isPlaying then Play else Idle)
    ensures f.out.hasListener && !f.out.hasEmittedError && !f.hasError ==>
              |g.out.emitted| == |f.out.emitted| + 1 && g.out.emitted[|f.out.emitted|].batch == backfill
    ensures Steady(f, g)
  {
    var e := Emit(f.(out := f.out.(messages := backfill, messagesRef := f.nextRef), nextRef := f.nextRef + 1,
                     currentTime := Some(target), lastSeekEmitTime := now, presence := Present));
    var it := e.(cursor := Some(Cursor(e.subs.allTopics, target.ns + 1, opening, 0)));
    Requested(it, if it.isPlaying then Play else Idle)
  }

  /**
   * `resetPlaybackIterator`: without a source or a current time it throws;
   * otherwise the iterator is reopened over every subscribed topic 1 ns
   * after the current time.
   */
  function ResetIterator(f: WorkerFields, opening: seq<IterResult>): (n: Next)
    ensures !f.src.initialized ==> n == Next(f, Fail(UninitializedMessage))
    ensures f.src.initialized && f.currentTime.None? ==> n == Next(f, Fail(ResetNoTimeMessage))
    ensures f.src.initialized && f.currentTime.Some? ==>
              && n.outcome.Pass?
              && n.f == f.(cursor := Some(Cursor(f.subs.allTopics, f.currentTime.value.ns + 1, opening, 0)))
  {
    if !f.src.initialized then Next(f, Fail(UninitializedMessage))
    else if f.currentTime.None? then Next(f, Fail(ResetNoTimeMessage))
    else Next(f.(cursor := Some(Cursor(f.subs.allTopics, f.currentTime.value.ns + 1, opening, 0))), Pass)
  }

  /** `_stateResetPlaybackIterator`: reopens the iterator 1 ns after the current time and requests play or idle. */
  function StateReset(f: WorkerFields, opening: seq<IterResult>): (n: Next)
    ensures Steady(f, n.f)
    ensures f.currentTime.None? ==> n == Next(f, Fail(ResetNoTimeMessage))
    ensures f.currentTime.Some? && !f.src.initialized ==> n == Next(f, Fail(UninitializedMessage))
    ensures f.currentTime.Some? && f.src.initialized ==>
              && n.outcome.Pass?
              && n.f.cursor == Some(Cursor(f.subs.allTopics, f.currentTime.value.ns + 1, opening, 0))
              && n.f.nextState == Some(if f.isPlaying then Play else Idle)
    ensures n.f.currentTime.None? ==> f.currentTime.None?
  {
    if f.currentTime.None? then Next(f, Fail(ResetNoTimeMessage))
    else
      var it := ResetIterator(f, opening);
      if it.outcome.Fail? then it
      else Next(Requested(it.f, if it.f.isPlaying then Play else Idle), Pass)
  }

  /** One round of the play loop: the range of its tick, the commands during the tick's reads, and those after it. */
  datatype PlayRound = PlayRound(rangeNs: nat, during: Arrival, afterTick: seq<Command>)

  /** Whether the play loop goes on: the round ended normally, or the loop stops with the fields `g`. */
  datatype RoundEnd = Stop(g: WorkerFields) | Go(g: WorkerFields)

  /**
   * One round of the play loop, for a topic set of identity `topicsRef`: a
   * tick; an error in it is flagged and emitted and ends the loop, as does
   * a pending state; a replaced topic set drops the carried message and
   * requests an iterator reset; otherwise the progress object is refreshed
   * and the commands of the round run.
   */
  function PlayStep(f: WorkerFields, topicsRef: nat, round: PlayRound): (s: RoundEnd)
    ensures Steady(f, s.g)
    ensures s.g.currentTime.None? ==> f.currentTime.None?
    ensures var t := Tick(f, round.rangeNs, round.during);
            && (t.outcome.Fail? ==> s.Stop? && s.g.hasError && !s.g.isPlaying)
            && (t.outcome.Pass? && t.f.nextState.Some? ==> s == Stop(t.f))
            && (t.outcome.Pass? && t.f.nextState.None? && t.f.subs.allTopicsRef != topicsRef ==>
                  && s.Stop? && s.g.nextState == Some(ResetPlaybackIterator)
                  && s.g.lastMessage.None? && s.g.cursor.None?
                  && s.g.currentTime == t.f.currentTime && s.g.out == t.f.out)
            && (s.Go? ==> t.outcome.Pass? && t.f.nextState.None? && t.f.subs.allTopicsRef == topicsRef)
  {
    var t := Tick(f, round.rangeNs, round.during);
    if t.outcome.Fail? then
      var e := WithError(t.f, t.outcome.message);
      EmitSpec(e);
      var g := Emit(e);
      SteadyTrans(f, t.f, e);
      SteadyTrans(f, e, g);
      Stop(g)
    else if t.f.nextState.Some? then Stop(t.f)
    else if t.f.subs.allTopicsRef != topicsRef then
      var g := Requested(t.f.(lastMessage := None), ResetPlaybackIterator);
      SteadyTrans(f, t.f, g);
      Stop(g)
    else
      var p := t.f.(progressRef := t.f.nextRef, nextRef := t.f.nextRef + 1);
      var q := ApplyAll(p, round.afterTick);
      SteadyTrans(f, t.f, p);
      SteadyTrans(f, p, q);
      Go(q)
  }

  /**
   * The play loop, for a topic set of identity `topicsRef`: while playing
   * without error or pending state, requests idle at the end of the
   * recording and otherwise runs a round.
   */
  function PlayLoop(f: WorkerFields, topicsRef: nat, rounds: seq<PlayRound>): (g: WorkerFields)
    ensures Steady(f, g)
    ensures g.currentTime.None? ==> f.currentTime.None?
    decreases |rounds|
  {
    if !(f.isPlaying && !f.hasError && f.nextState.None?) then f
    else if f.currentTime.Some? && f.currentTime.value.ns >= f.src.end.ns then Requested(f, Idle)
    else if rounds == [] then f
    else
      match PlayStep(f, topicsRef, rounds[0])
      case Stop(g) => g
      case Go(q) =>
        var g := PlayLoop(q, topicsRef, rounds[1..]);
        SteadyTrans(f, q, g);
        g
  }

  /** The play loop requests idle once the current time reaches the end, and only then leaves a playing worker without a tick. */
  lemma PlayLoopAtEnd(f: WorkerFields, topicsRef: nat, rounds: seq<PlayRound>)
    requires f.isPlaying && !f.hasError && f.nextState.None?
    requires f.currentTime.Some? && f.currentTime.value.ns >= f.src.end.ns
    ensures PlayLoop(f, topicsRef, rounds) == Requested(f, Idle)
  {
  }

  /**
   * A round whose tick passes with nothing pending but finds the topic set
   * replaced ends the play loop with the carried message dropped, the
   * iterator closed and an iterator reset requested.
   */
  lemma PlayLoopTopicsReplaced(f: WorkerFields, topicsRef: nat, rounds: seq<PlayRound>)
    requires f.isPlaying && !f.hasError && f.nextState.None?
    requires f.currentTime.Some? && f.currentTime.value.ns < f.src.end.ns
    requires rounds != []
    requires var t := Tick(f, rounds[0].rangeNs, rounds[0].during);
             t.outcome.Pass? && t.f.nextState.None? && t.f.subs.allTopicsRef != topicsRef
    ensures var g := PlayLoop(f, topicsRef, rounds);
            g.nextState == Some(ResetPlaybackIterator) && g.lastMessage.None? && g.cursor.None?
  {
    assert PlayLoop(f, topicsRef, rounds) == PlayStep(f, topicsRef, rounds[0]).g;
  }

  /** `_statePlay`: marks the player present and runs the play loop from the current topic set. */
  function StatePlay(f: WorkerFields, rounds: seq<PlayRound>): (n: Next)
    ensures Steady(f, n.f)
    ensures !f.src.initialized ==> n == Next(f, Fail(UninitializedMessage))
    ensures f.src.initialized && f.currentTime.None? ==> n.outcome == Fail(PlayNoTimeMessage)
    ensures n.f.currentTime.None? ==> f.currentTime.None?
  {
    if !f.src.initialized then Next(f, Fail(UninitializedMessage))
    else
      var g := f.(presence := Present);
      if g.currentTime.None? then Next(g, Fail(PlayNoTimeMessage))
      else Next(PlayLoop(g, g.subs.allTopicsRef, rounds), Pass)
  }

  /**
   * In the play state, when the topic set is replaced by the time the first
   * tick's reads are done and nothing became pending, the state ends with
   * the carried message dropped, the iterator closed and an iterator reset
   * requested.
   */
  lemma StatePlayTopicsReplaced(f: WorkerFields, rounds: seq<PlayRound>)
    requires f.src.initialized && f.isPlaying && !f.hasError && f.nextState.None?
    requires f.currentTime.Some? && f.currentTime.value.ns < f.src.end.ns
    requires rounds != []
    requires var t := Tick(f.(presence := Present), rounds[0].rangeNs, rounds[0].during);
             t.outcome.Pass? && t.f.nextState.None? && t.f.subs.allTopicsRef != f.subs.allTopicsRef
    ensures var n := StatePlay(f, rounds);
            n.outcome.Pass? && n.f.nextState == Some(ResetPlaybackIterator) && n.f.lastMessage.None? && n.f.cursor.None?
  {
    PlayLoopTopicsReplaced(f.(presence := Present), f.subs.allTopicsRef, rounds);
  }

  /** What the environment supplies to one pass of the runner, each state using its part. */
  datatype StepInput = StepInput(
    opening: seq<IterResult>,
    during: Arrival,
    backfill: seq<MessageEvent>,
    meanwhile: seq<Command>,
    now: nat,
    idleRounds: seq<seq<Command>>,
    playRounds: seq<PlayRound>)

  /** One pass of `_runState`'s switch. */
  function RunPass(f: WorkerFields, s: State, input: StepInput): (n: Next)
    ensures Steady(f, n.f)
    ensures n.f.currentTime.None? ==> f.currentTime.None?
  {
    match s
    case Preinit => Next(f, Pass)
    case StartPlay => StateStartPlay(f, input.opening, input.during)
    case Idle => StateIdle(f, input.idleRounds)
    case SeekBackfill => StateSeekBackfill(f, input.backfill, input.meanwhile, input.now, input.opening)
    case Play => StatePlay(f, input.playRounds)
    case ResetPlaybackIterator => StateReset(f, input.opening)
  }

  /** How one pass of `_runState`'s loop ends: the loop stops with the states run, or goes on after running `s`. */
  datatype RunEnd = RunStop(g: WorkerFields, ran: seq<State>) | RunGo(g: WorkerFields, s: State)

  /**
   * One pass of `_runState`'s loop: with no state pending (or no input
   * left) the loop stops; otherwise the pending state becomes the current
   * one and runs, and an error stops the loop, flagged and emitted.
   */
  function RunStep(f: WorkerFields, steps: seq<StepInput>): (e: RunEnd)
    ensures e.RunStop? && e.ran == [] <==> f.nextState.None? || steps == []
    ensures e.RunStop? && e.ran == [] ==> e.g == f
    ensures e.RunStop? && e.ran != [] ==> f.nextState.Some? && e.ran == [f.nextState.value] && e.g.state == e.ran[0] && e.g.hasError
    ensures e.RunGo? ==> steps != [] && f.nextState.Some? && e.s == f.nextState.value && e.g.state == e.s
    ensures e.g.runningState == f.runningState
  {
    if f.nextState.None? || steps == [] then RunStop(f, [])
    else
      var s := f.nextState.value;
      var g := f.(state := s, nextState := None);
      var n := RunPass(g, s, steps[0]);
      if n.outcome.Fail? then RunStop(Emit(WithError(n.f, n.outcome.message)), [s])
      else RunGo(n.f, s)
  }

  /**
   * The loop of `_runState`: while a state is pending (and input remains),
   * it becomes the current state and runs; an error ends the loop, flagged
   * and emitted. The states run are returned in order.
   */
  function RunLoop(f: WorkerFields, steps: seq<StepInput>): (r: (WorkerFields, seq<State>))
    decreases |steps|
  {
    match RunStep(f, steps)
    case RunStop(g, ran) => (g, ran)
    case RunGo(g, s) =>
      var r := RunLoop(g, steps[1..]);
      (r.0, [s] + r.1)
  }

  /**
   * The loop runs at most one state per input, starting with the pending
   * one and ending in the last one run; it keeps the running flag; and it
   * ends with no state pending unless it ran out of input or raised an error.
   */
  lemma {:induction false} RunLoopSpec(f: WorkerFields, steps: seq<StepInput>)
    ensures var r := RunLoop(f, steps);
            && |r.1| <= |steps|
            && (r.1 != [] ==> f.nextState.Some? && r.1[0] == f.nextState.value && r.0.state == r.1[|r.1| - 1])
            && (r.1 == [] ==> r.0 == f)
            && r.0.runningState == f.runningState
            && (r.0.nextState.None? || |r.1| == |steps| || r.0.hasError)
    decreases |steps|
  {
    if RunStep(f, steps).RunGo? {
      RunLoopSpec(RunStep(f, steps).g, steps[1..]);
    }
  }

  /** `_runState`: does nothing while a run is active; otherwise runs the loop with the running flag held. */
  function RunState(f: WorkerFields, steps: seq<StepInput>): (r: (WorkerFields, seq<State>))
    ensures f.runningState ==> r == (f, [])
    ensures !f.runningState ==> !r.0.runningState
  {
    if f.runningState then (f, [])
    else
      var r := RunLoop(f.(runningState := true), steps);
      (r.0.(runningState := false), r.1)
  }

  // ---------------------------------------------------------------- initialize

  function Names(ts: seq<Topic>): set<string>
    decreases |ts|
  {
    if ts == [] then {} else {ts[0].name} + Names(ts[1..])
  }

  /** Every topic's name is among the names. */
  lemma {:induction false} NameIn(ts: seq<Topic>, i: nat)
    requires i < |ts|
    ensures ts[i].name in Names(ts)
    decreases i
  {
    if i > 0 {
      NameIn(ts[1..], i - 1);
    }
  }

  /** The problem reported for a topic whose name was seen before. */
  function DuplicateProblem(name: string): Problem {
    Problem("warn", "Duplicate topic: " + name)
  }

  /**
   * The topic de-duplication of `initialize`, from the names already `seen`
   * on: the first topic of each new name is kept, and each later one is
   * reported as a duplicate, in order.
   */
  function DedupTopics(ts: seq<Topic>, seen: set<string>): (r: (seq<Topic>, seq<Problem>))
    ensures Names(r.0) + seen == Names(ts) + seen
    ensures Names(r.0) !! seen
    ensures |r.0| + |r.1| == |ts|
    decreases |ts|
  {
    if ts == [] then ([], [])
    else if ts[0].name in seen then
      var r := DedupTopics(ts[1..], seen);
      (r.0, [DuplicateProblem(ts[0].name)] + r.1)
    else
      var r := DedupTopics(ts[1..], seen + {ts[0].name});
      assert ([ts[0]] + r.0)[1..] == r.0;
      ([ts[0]] + r.0, r.1)
  }

  /** No kept topic has a name seen before. */
  lemma DedupTopicsUnseen(ts: seq<Topic>, seen: set<string>, j: nat)
    requires j < |DedupTopics(ts, seen).0|
    ensures DedupTopics(ts, seen).0[j].name !in seen
  {
    NameIn(DedupTopics(ts, seen).0, j);
  }

  /** No two topics share a name. */
  predicate DistinctNames(u: seq<Topic>) {
    forall i, j :: 0 <= i < j < |u| ==> u[i].name != u[j].name
  }

  /** The kept topics have pairwise distinct names. */
  lemma {:induction false} DedupTopicsDistinct(ts: seq<Topic>, seen: set<string>)
    ensures DistinctNames(DedupTopics(ts, seen).0)
    decreases |ts|
  {
    if ts != [] {
      var t := ts[0];
      var seen1 := if t.name in seen then seen else seen + {t.name};
      DedupTopicsDistinct(ts[1..], seen1);
      var u1 := DedupTopics(ts[1..], seen1).0;
      var u := DedupTopics(ts, seen).0;
      if t.name !in seen {
        assert u == [t] + u1;
        forall i, j | 0 <= i < j < |u| ensures u[i].name != u[j].name {
          assert u[j] == u1[j - 1];
          if i == 0 {
            DedupTopicsUnseen(ts[1..], seen1, j - 1);
          } else {
            assert u[i] == u1[i - 1];
          }
        }
      } else {
        assert u == u1;
      }
    }
  }

  /** Each kept topic is a topic of the input with no earlier topic of its name. */
  lemma {:induction false} DedupTopicsFirst(ts: seq<Topic>, seen: set<string>, j: nat)
    requires j < |DedupTopics(ts, seen).0|
    ensures var u := DedupTopics(ts, seen).0;
            exists i :: 0 <= i < |ts| && ts[i] == u[j] && forall h :: 0 <= h < i ==> ts[h].name != u[j].name
    decreases |ts|
  {
    var t := ts[0];
    var seen1 := if t.name in seen then seen else seen + {t.name};
    var u1 := DedupTopics(ts[1..], seen1).0;
    var u := DedupTopics(ts, seen).0;
    assert u == (if t.name in seen then u1 else [t] + u1);
    if t.name !in seen && j == 0 {
      assert ts[0] == u[0];
    } else {
      var j1 := if t.name in seen then j else j - 1;
      assert u[j] == u1[j1];
      DedupTopicsFirst(ts[1..], seen1, j1);
      DedupTopicsUnseen(ts[1..], seen1, j1);
      var i :| 0 <= i < |ts[1..]| && ts[1..][i] == u1[j1] && forall h :: 0 <= h < i ==> ts[1..][h].name != u1[j1].name;
      assert ts[i + 1] == u[j];
      forall h | 0 <= h < i + 1 ensures ts[h].name != u[j].name {
        if h > 0 { assert ts[h] == ts[1..][h - 1]; }
      }
    }
  }

  /** The problems of `initialize`, stored under `init-problem-<i>` from index `i` on. */
  function InitProblems(m: map<ProblemKey, Problem>, ps: seq<Problem>, i: nat): (r: map<ProblemKey, Problem>)
    requires i <= |ps|
    ensures forall j :: i <= j < |ps| ==> InitProblem(j) in r && r[InitProblem(j)] == ps[j]
    ensures forall k :: k in m && !(k.InitProblem? && i <= k.index < |ps|) ==> k in r && r[k] == m[k]
    decreases |ps| - i
  {
    if i == |ps| then m else InitProblems(m[InitProblem(i) := ps[i]], ps, i + 1)
  }

  /** What the source reports when it initializes. */
  datatype InitResult = InitResult(
    start: nat,
    end: nat,
    topics: seq<Topic>,
    profile: Option<string>,
    problems: seq<Problem>,
    name: Option<string>)

  /**
   * What `initialize` records of the source: the range (the start object
   * numbered `ref`), the profile, the name and the kept topics, each object
   * new.
   */
  function Loaded(src: SourceInfo, init: InitResult, topics: seq<Topic>, ref: nat): (s: SourceInfo)
    ensures s.initialized && s.start == TimeObj(init.start, ref) && s.end.ns == init.end
    ensures s.providerTopics == topics && s.profile == init.profile && s.name == init.name
    ensures s.id == src.id
  {
    src.(initialized := true, profile := init.profile, start := TimeObj(init.start, ref),
         end := TimeObj(init.end, ref + 1), publishedTopicsRef := ref + 2, datatypesRef := ref + 3,
         name := init.name, providerTopics := topics, topicsRef := ref + 4, topicStatsRef := ref + 5)
  }

  /**
   * `initialize`: an unknown source type throws. Otherwise, after an
   * emission, the range, profile and name are taken from the source, the
   * current time starts at the start (the same object), the topics are
   * de-duplicated, the problems and duplicate warnings are stored, the
   * player is marked present and emitted, and start-play is requested when
   * no error was raised.
   */
  function Initialize(f: WorkerFields, registered: bool, sourceType: string, init: InitResult): (n: Next)
    ensures !registered ==> n == Next(f, Fail(NoSourceMessage + sourceType))
    ensures registered ==>
              && n.outcome.Pass? && n.f.src.initialized
              && n.f.src.start.ns == init.start && n.f.src.end.ns == init.end && n.f.currentTime == Some(n.f.src.start)
              && n.f.src.providerTopics == DedupTopics(init.topics, {}).0
              && n.f.src.profile == init.profile && n.f.src.name == init.name
              && n.f.problems == InitProblems(f.problems, init.problems + DedupTopics(init.topics, {}).1, 0)
              && n.f.presence == Present
              && (!f.hasError ==> n.f.nextState == Some(StartPlay))
    ensures Steady(f, n.f)
  {
    if !registered then Next(f, Fail(NoSourceMessage + sourceType))
    else
      var e := Emit(f);
      var startObj := TimeObj(init.start, e.nextRef);
      var d := DedupTopics(init.topics, {});
      var g := e.(src := Loaded(e.src, init, d.0, e.nextRef), currentTime := Some(startObj),
                  problems := InitProblems(e.problems, init.problems + d.1, 0),
                  presence := Present, nextRef := e.nextRef + 6);
      var h := Emit(g);
      SteadyTrans(f, e, g);
      SteadyTrans(f, g, h);
      Next(if !h.hasError then Requested(h, StartPlay) else h, Pass)
  }

  // ---------------------------------------------------------------- properties across operations

  /** Once the error payload went out, the listener receives nothing more from any command. */
  lemma ErrorEmittedOnce(f: WorkerFields, cs: seq<Command>)
    requires f.out.hasEmittedError
    ensures ApplyAll(f, cs).out.emitted == f.out.emitted
  {
  }

  /** An emission with an error flagged sends the error payload and is the last one. */
  lemma ErrorPayloadLast(f: WorkerFields, cs: seq<Command>)
    requires f.out.hasListener && f.hasError && !f.out.hasEmittedError
    ensures var g := Emit(f);
            && g.out.emitted == f.out.emitted + [Emission(ErrorPayload(f, f.nextRef), [])]
            && ApplyAll(g, cs).out.emitted == g.out.emitted
  {
  }
}

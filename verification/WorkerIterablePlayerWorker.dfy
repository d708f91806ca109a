/**
 * The playback worker of the iterable player as an object whose methods
 * update its fields in place. Each method is proved against the transition
 * of `WorkerPlayback` that specifies it: after the call, the fields are the
 * transition applied to the fields before.
 */
module WorkerIterablePlayerWorker {
  import opened Wrappers
  import opened JsValues
  import opened RosTime
  import opened PlaybackState
  import opened WorkerPlayback

  /** The state machine: the current and the requested state, the runner flag and the abort controller. */
  datatype Control = Control(state: State, nextState: Option<State>, runningState: bool, abortActive: bool)

  /** The playback position and the player-facing status. */
  datatype Playback = Playback(
    presence: PlayerPresence,
    progressRef: nat,
    hasError: bool,
    isPlaying: bool,
    speed: real,
    currentTime: Option<TimeObj>,
    lastSeekEmitTime: nat,
    untilTime: Option<TimeObj>,
    seekTarget: Option<TimeObj>)

  /**
   * The worker. Its fields are those of the source class, grouped by what
   * changes together: the state machine, the subscriptions, what the data
   * source reported, the emission side, the playback position, and what the
   * read loops change (the playback iterator, the problems and the carried
   * message).
   */
  class Worker {
    var ctl: Control
    var subs: Subscribed
    var src: SourceInfo
    var out: Outbox
    var pb: Playback
    var rd: Reader
    /** The identity the next new object gets. */
    var nextRef: nat

    /** The fields, as the transitions of `WorkerPlayback` see them. */
    function Fields(): WorkerFields
      reads this
    {
      WorkerFields(
        ctl.state, ctl.nextState, ctl.runningState, ctl.abortActive, subs, src, out,
        pb.progressRef, pb.hasError, pb.presence, pb.isPlaying, pb.speed, pb.currentTime, pb.lastSeekEmitTime,
        pb.untilTime, rd.lastMessage, pb.seekTarget, rd.problems, rd.cursor, nextRef)
    }

    /**
     * A new worker for the player `playerId`, created at wall-clock time
     * `now`: in the pre-initialization state, initializing, paused at speed
     * 1, with no listener, no source and nothing emitted.
     */
    constructor (playerId: string, now: nat)
      ensures ctl == Control(Preinit, None, false, false)
      ensures pb == Playback(Initializing, 9, false, false, 1.0, None, now, None, None)
      ensures !src.initialized && src.id == playerId && src.providerTopics == []
      ensures subs.subscriptions == [] && subs.allTopics == {} && subs.partialTopics == {}
      ensures !out.hasListener && !out.hasEmittedError && out.prevState.None? && out.emitted == []
      ensures rd == Reader(None, map[], None)
    {
      ctl := Control(Preinit, None, false, false);
      subs := Subscribed([], {}, 0, {});
      src := SourceInfo(false, None, None, playerId, 1, 2, 3, 4, 5, [], TimeObj(0, 6), TimeObj(0, 7));
      out := Outbox(false, [], 8, false, None, []);
      pb := Playback(Initializing, 9, false, false, 1.0, None, now, None, None);
      rd := Reader(None, map[], None);
      nextRef := 10;
    }

    /** `registerListener`: the listener is set, and nothing else changes. */
    method RegisterListener()
      modifies this
      ensures Fields() == old(Fields()).(out := old(Fields()).out.(hasListener := true))
    {
      out := out.(hasListener := true);
    }

    /** `_setState`. */
    method SetState(s: State)
      modifies this
      ensures Fields() == Requested(old(Fields()), s)
    {
      ctl := ctl.(nextState := Some(s), abortActive := false);
      if s != Idle && s != Play {
        rd := rd.(cursor := None);
      }
    }

    /** `_setError`. */
    method SetError(message: string)
      modifies this
      ensures Fields() == WithError(old(Fields()), message)
    {
      pb := pb.(hasError := true, isPlaying := false);
      rd := rd.(problems := rd.problems[GlobalError := Problem("error", message)]);
    }

    /** `pausePlayback`. */
    method PausePlayback()
      modifies this
      ensures Fields() == WorkerPlayback.PausePlayback(old(Fields()))
    {
      if !pb.isPlaying {
        return;
      }
      pb := pb.(isPlaying := false, untilTime := None);
      if ctl.state == Play {
        SetState(Idle);
      }
    }

    /** `seekPlayback`. */
    method SeekPlayback(time: nat)
      modifies this
      ensures Fields() == WorkerPlayback.SeekPlayback(old(Fields()), time)
    {
      var target := ClampTime(time, src.start.ns, src.end.ns);
      if pb.seekTarget.Some? && pb.seekTarget.value.ns == target {
        return;
      }
      if pb.currentTime.Some? && pb.currentTime.value.ns == target {
        return;
      }
      pb := pb.(seekTarget := Some(TimeObj(target, nextRef)), untilTime := None);
      nextRef := nextRef + 1;
      SetState(SeekBackfill);
    }

    /**
     * `_emitStateImpl`: nothing without a listener or once the error payload
     * went out; the error payload once an error is flagged; otherwise the
     * properties of the new snapshot that differ from the previous one, with
     * the pending messages, after which the pending messages start over.
     */
    method EmitStateImpl()
      modifies this
      ensures Fields() == Emit(old(Fields()))
    {
      if !out.hasListener || out.hasEmittedError {
        return;
      }
      if pb.hasError {
        EmitErrorPayload();
      } else {
        EmitChanges();
      }
    }

    /** The error branch of `_emitStateImpl`. */
    method EmitErrorPayload()
      requires out.hasListener && !out.hasEmittedError && pb.hasError
      modifies this
      ensures Fields() == Emit(old(Fields()))
    {
      out := out.(hasEmittedError := true, emitted := out.emitted + [Emission(ErrorPayload(Fields(), nextRef), [])]);
      nextRef := nextRef + 3;
    }

    /** The snapshot branch of `_emitStateImpl`. */
    method EmitChanges()
      requires out.hasListener && !out.hasEmittedError && !pb.hasError
      modifies this
      ensures Fields() == EmitDiff(old(Fields()), Snapshot(old(Fields()), old(nextRef), old(nextRef) + 1))
    {
      var f := Fields();
      var snap := Snapshot(f, nextRef, nextRef + 1);
      var partial := DiffSnapshot(SnapshotKeys, out.prevState, snap);
      out := out.(messages := [], messagesRef := nextRef + 2, prevState := Some(snap),
                  emitted := out.emitted + [Emission(partial, out.messages)]);
      nextRef := nextRef + 3;
    }

    /** `setPlaybackSpeed`: stores the speed and emits. */
    method SetPlaybackSpeed(speed: real)
      modifies this
      ensures Fields() == WorkerPlayback.SetPlaybackSpeed(old(Fields()), speed)
    {
      pb := pb.(speed := speed);
      EmitStateImpl();
    }

    /** `startPlay`; a failure is the error it throws. */
    method StartPlay(until: Option<nat>) returns (r: Outcome)
      modifies this
      ensures Next(Fields(), r) == StartPlayback(old(Fields()), until)
    {
      if pb.isPlaying || pb.untilTime.Some? {
        return Pass;
      }
      if until.Some? {
        if pb.currentTime.Some? && until.value <= pb.currentTime.value.ns {
          return Fail(PlayUntilMessage);
        }
        pb := pb.(untilTime := Some(TimeObj(ClampTime(until.value, src.start.ns, src.end.ns), nextRef)));
        nextRef := nextRef + 1;
      }
      pb := pb.(isPlaying := true);
      if ctl.state == Idle && (ctl.nextState.None? || ctl.nextState == Some(Idle)) {
        SetState(Play);
      }
      r := Pass;
    }

    /** `setSubscriptions`. */
    method SetSubscriptions(newSubscriptions: seq<Subscription>)
      modifies this
      ensures Fields() == WorkerPlayback.SetSubscriptions(old(Fields()), newSubscriptions)
    {
      var all := TopicsOf(newSubscriptions);
      var nonPartial := NonPartialTopicsOf(newSubscriptions);
      if all == subs.allTopics && nonPartial == subs.partialTopics {
        subs := subs.(subscriptions := newSubscriptions);
        return;
      }
      subs := Subscribed(newSubscriptions, all, nextRef, nonPartial);
      nextRef := nextRef + 1;
      if (ctl.state == Idle || ctl.state == SeekBackfill || ctl.state == Play) && !pb.isPlaying && pb.currentTime.Some? {
        pb := pb.(seekTarget := pb.currentTime, untilTime := None);
        SetState(SeekBackfill);
      }
    }

    /** The commands from the player that run while a state is suspended, in order. */
    method ApplyCommands(cs: seq<Command>)
      modifies this
      ensures Fields() == ApplyAll(old(Fields()), cs)
    {
      for i := 0 to |cs|
        invariant ApplyAll(old(Fields()), cs) == ApplyAll(Fields(), cs[i..])
      {
        assert cs[i..][1..] == cs[i + 1..];
        match cs[i]
        case SeekCmd(t) => SeekPlayback(t);
        case PauseCmd => PausePlayback();
        case PlayCmd(u) => var _ := StartPlay(u);
        case SubscribeCmd(ss) => SetSubscriptions(ss);
      }
    }

    /** A tick's commit: the current time moves to the tick end, the batch is emitted, and playback pauses at the play-until. */
    method CommitTick(endObj: TimeObj, batch: seq<MessageEvent>)
      modifies this
      ensures Fields() == WorkerPlayback.CommitTick(old(Fields()), endObj, batch)
    {
      ghost var f := Fields();
      pb := pb.(currentTime := Some(endObj));
      StageBatch(batch);
      assert Fields() == TickStaged(f, endObj, batch);
      EmitStateImpl();
      ghost var e := Fields();
      if pb.untilTime.Some? && endObj.ns >= pb.untilTime.value.ns {
        PausePlayback();
        assert Fields() == WorkerPlayback.PausePlayback(e);
      }
    }

    /** `this._messages = batch`: the pending messages become a new array holding the batch. */
    method StageBatch(batch: seq<MessageEvent>)
      modifies this
      ensures Fields() == old(Fields()).(out := old(out).(messages := batch, messagesRef := old(nextRef)), nextRef := old(nextRef) + 1)
    {
      out := out.(messages := batch, messagesRef := nextRef);
      nextRef := nextRef + 1;
    }

    /**
     * The read loop of `_tick`, up to the inclusive end `endNs`, the batch
     * starting as `batch0`, the commands of `arrival` arriving at their read;
     * the fields are `w` with the reader `rd`.
     */
    method TickReads(ghost w: WorkerFields, endNs: nat, batch0: seq<MessageEvent>, arrival: Arrival)
      returns (batch: seq<MessageEvent>, r: Outcome)
      requires Fields() == WithReader(w, rd)
      modifies this
      ensures var t := TickRead(w, old(rd), endNs, batch0, arrival, 0);
              Fields() == t.f && batch == t.batch && r == t.outcome
    {
      ghost var total := TickRead(w, rd, endNs, batch0, arrival, 0);
      ghost var v := w;
      var k := 0;
      batch := batch0;
      while true
        invariant Fields() == WithReader(v, rd)
        invariant TickRead(v, rd, endNs, batch, arrival, k) == total
        decreases Remaining(rd)
      {
        var done;
        v, batch, done, r := TickReadStep(v, endNs, batch, arrival, k);
        if done {
          return;
        }
        k := k + 1;
      }
    }

    /**
     * `await this._playbackIterator.next()`, read number `k`: the iterator
     * moves past one result when one is left, and the commands of `arrival`
     * run when this read is theirs.
     */
    method ReadNext(ghost v: WorkerFields, arrival: Arrival, k: nat) returns (ghost v2: WorkerFields)
      requires rd.cursor.Some? && Fields() == WithReader(v, rd)
      modifies this
      ensures (v2, rd) == Arrive(v, Advance(old(rd)), arrival, k)
      ensures Fields() == WithReader(v2, rd)
    {
      var c := rd.cursor.value;
      if c.pos < |c.items| {
        rd := rd.(cursor := Some(c.(pos := c.pos + 1)));
      }
      assert rd == Advance(old(rd)) && Fields() == WithReader(v, rd);
      v2 := v;
      if k == arrival.at {
        ApplyCommands(arrival.commands);
        v2 := Fields();
      }
    }

    /** One pass of `_tick`'s read loop: read number `k`, on the fields `v` with the reader `rd`. */
    method TickReadStep(ghost v: WorkerFields, endNs: nat, batch: seq<MessageEvent>, arrival: Arrival, k: nat)
      returns (ghost v2: WorkerFields, batch2: seq<MessageEvent>, done: bool, r: Outcome)
      requires Fields() == WithReader(v, rd)
      modifies this
      ensures Fields() == WithReader(v2, rd)
      ensures TickStep(v, old(rd), endNs, batch, arrival, k)
              == if done then Done(ReadOut(Fields(), batch2, false, r)) else Continue(v2, rd, batch2)
    {
      v2, batch2, r := v, batch, Pass;
      if rd.cursor.None? {
        return v2, batch2, true, Fail(NoIteratorMessage);
      }
      var c := rd.cursor.value;
      v2 := ReadNext(v, arrival, k);
      if c.pos >= |c.items| || ctl.nextState.Some? {
        return v2, batch2, true, Pass;
      }
      done := false;
      match c.items[c.pos]
      case ProblemResult(id, p) =>
        rd := rd.(problems := rd.problems[ConnId(id) := p]);
      case Msg(m) =>
        if m.receiveTime > endNs {
          rd := rd.(lastMessage := Some(m));
          done := true;
        } else {
          batch2 := batch + [m];
        }
    }

    /**
     * `_tick`, with the range to read given: nothing unless playing; a
     * carried message past the tick end leaves the batch empty, otherwise it
     * leads the batch and the iterator is read up to the end; the batch is
     * dropped when a state became pending meanwhile.
     */
    method Tick(rangeNs: nat, during: Arrival) returns (r: Outcome)
      modifies this
      ensures Next(Fields(), r) == WorkerPlayback.Tick(old(Fields()), rangeNs, during)
    {
      if !pb.isPlaying {
        return Pass;
      }
      if pb.currentTime.None? {
        return Fail(TickNoTimeMessage);
      }
      var endNs := ClampTime(pb.currentTime.value.ns + rangeNs, src.start.ns, pb.untilTime.GetOr(src.end).ns);
      var endObj := TimeObj(endNs, nextRef);
      ghost var f := Fields();
      assert endNs == TickEnd(f, rangeNs);
      nextRef := nextRef + 1;
      assert Fields() == f.(nextRef := f.nextRef + 1);
      r := TickTo(endObj, during);
    }

    /** `_tick` once its end is known. */
    method TickTo(endObj: TimeObj, during: Arrival) returns (r: Outcome)
      modifies this
      ensures Next(Fields(), r) == WorkerPlayback.TickTo(old(Fields()), endObj, during)
    {
      if rd.lastMessage.Some? && rd.lastMessage.value.receiveTime > endObj.ns {
        CommitTick(endObj, []);
        return Pass;
      }
      r := TickBatch(endObj, during);
    }

    /** The reading half of `_tick`, up to the tick end `endObj`. */
    method TickBatch(endObj: TimeObj, during: Arrival) returns (r: Outcome)
      modifies this
      ensures Next(Fields(), r) == WorkerPlayback.TickBatch(old(Fields()), endObj, during)
    {
      ghost var f := Fields();
      var msgEvents := if rd.lastMessage.Some? then [rd.lastMessage.value] else [];
      rd := rd.(lastMessage := None);
      assert Fields() == WithReader(f, Reader(f.cursor, f.problems, None));
      var batch;
      batch, r := TickReads(f, endObj.ns, msgEvents, during);
      if r.Fail? {
        return;
      }
      ghost var g := Fields();
      pb := pb.(presence := Present);
      assert Fields() == g.(presence := Present);
      if ctl.nextState.Some? {
        return;
      }
      CommitTick(endObj, batch);
    }

    /** The read loop of `_stateStartPlay`, up to the inclusive stop `stopNs`; the fields are `w` with the reader `rd`. */
    method StartReads(ghost w: WorkerFields, stopNs: nat, arrival: Arrival)
      returns (batch: seq<MessageEvent>, bailed: bool, r: Outcome)
      requires Fields() == WithReader(w, rd)
      modifies this
      ensures var t := StartRead(w, old(rd), stopNs, [], arrival, 0);
              Fields() == t.f && batch == t.batch && bailed == t.bailed && r == t.outcome
    {
      ghost var total := StartRead(w, rd, stopNs, [], arrival, 0);
      ghost var v := w;
      var k := 0;
      batch := [];
      while true
        invariant Fields() == WithReader(v, rd)
        invariant StartRead(v, rd, stopNs, batch, arrival, k) == total
        decreases Remaining(rd)
      {
        var done;
        v, batch, done, bailed, r := StartReadStep(v, stopNs, batch, arrival, k);
        if done {
          return;
        }
        k := k + 1;
      }
    }

    /** One pass of `_stateStartPlay`'s read loop: read number `k`, on the fields `v` with the reader `rd`. */
    method StartReadStep(ghost v: WorkerFields, stopNs: nat, batch: seq<MessageEvent>, arrival: Arrival, k: nat)
      returns (ghost v2: WorkerFields, batch2: seq<MessageEvent>, done: bool, bailed: bool, r: Outcome)
      requires Fields() == WithReader(v, rd)
      modifies this
      ensures Fields() == WithReader(v2, rd)
      ensures StartStep(v, old(rd), stopNs, batch, arrival, k)
              == if done then Done(ReadOut(Fields(), batch2, bailed, r)) else Continue(v2, rd, batch2)
    {
      v2, batch2, bailed, r := v, batch, false, Pass;
      if rd.cursor.None? {
        return v2, batch2, true, false, Fail(NoIteratorMessage);
      }
      var c := rd.cursor.value;
      v2 := ReadNext(v, arrival, k);
      if c.pos >= |c.items| {
        return v2, batch2, true, false, Pass;
      }
      if ctl.nextState.Some? {
        return v2, batch2, true, true, Pass;
      }
      done := false;
      match c.items[c.pos]
      case ProblemResult(id, p) =>
        rd := rd.(problems := rd.problems[ConnId(id) := p]);
      case Msg(m) =>
        if m.receiveTime > stopNs {
          rd := rd.(lastMessage := Some(m));
          done := true;
        } else {
          batch2 := batch + [m];
        }
    }

    /**
     * `_stateStartPlay`: opens the iterator at the start over every
     * subscribed topic, reads the first 99 ms, and unless a state became
     * pending commits them at that instant and requests idle.
     */
    method StateStartPlay(opening: seq<IterResult>, during: Arrival) returns (r: Outcome)
      modifies this
      ensures Next(Fields(), r) == WorkerPlayback.StateStartPlay(old(Fields()), opening, during)
    {
      if !src.initialized {
        return Fail(UninitializedMessage);
      }
      if rd.cursor.Some? {
        return Fail(IteratorSetMessage);
      }
      r := StartPlayFrom(opening, during);
    }

    /** `_stateStartPlay` once its checks pass. */
    method StartPlayFrom(opening: seq<IterResult>, during: Arrival) returns (r: Outcome)
      modifies this
      ensures Next(Fields(), r) == WorkerPlayback.StartPlayFrom(old(Fields()), opening, during)
    {
      var stopNs := ClampTime(src.start.ns + SEEK_ON_START_NS, src.start.ns, src.end.ns);
      var stopObj := TimeObj(stopNs, nextRef);
      ghost var f := Fields();
      ghost var f1 := f.(out := f.out.(messages := [], messagesRef := f.nextRef + 1), nextRef := f.nextRef + 2);
      ghost var rd0 := Reader(Some(Cursor(f.subs.allTopics, f.src.start.ns, opening, 0)), f.problems, None);
      ghost var goal := WorkerPlayback.StartPlayRead(f1, rd0, stopObj, during);
      assert WorkerPlayback.StartPlayFrom(f, opening, during) == goal;
      OpenFromStart(opening);
      assert rd == rd0 && Fields() == WithReader(f1, rd0);
      r := StartPlayRead(f1, stopObj, during);
      assert Next(Fields(), r) == goal;
    }

    /** The reading half of `_stateStartPlay`, on the fields `w` with the opened reader. */
    method StartPlayRead(ghost w: WorkerFields, stopObj: TimeObj, during: Arrival) returns (r: Outcome)
      requires Fields() == WithReader(w, rd)
      modifies this
      ensures Next(Fields(), r) == WorkerPlayback.StartPlayRead(w, old(rd), stopObj, during)
    {
      var batch, bailed;
      batch, bailed, r := StartReads(w, stopObj.ns, during);
      if r.Fail? || bailed {
        return;
      }
      CommitStart(stopObj, batch);
    }

    /**
     * The opening of `_stateStartPlay`: the iterator starts at the start over
     * every subscribed topic, no message is carried, and the pending
     * messages start over from a new empty array (after the stop time's
     * object).
     */
    method OpenFromStart(opening: seq<IterResult>)
      modifies this
      ensures rd == Reader(Some(Cursor(old(subs.allTopics), old(src.start.ns), opening, 0)), old(rd.problems), None)
      ensures Fields() == WithReader(old(Fields()).(out := old(out).(messages := [], messagesRef := old(nextRef) + 1),
                                                     nextRef := old(nextRef) + 2), rd)
    {
      rd := Reader(Some(Cursor(subs.allTopics, src.start.ns, opening, 0)), rd.problems, None);
      out := out.(messages := [], messagesRef := nextRef + 1);
      nextRef := nextRef + 2;
    }

    /** The end of `_stateStartPlay`: the first batch is committed at the stop time, and idle is requested. */
    method CommitStart(stopObj: TimeObj, batch: seq<MessageEvent>)
      modifies this
      ensures Fields() == WorkerPlayback.CommitStart(old(Fields()), stopObj, batch)
    {
      ghost var f := Fields();
      pb := pb.(currentTime := Some(stopObj), presence := Present);
      StageBatch(batch);
      assert Fields() == StartStaged(f, stopObj, batch);
      EmitStateImpl();
      SetState(Idle);
    }

    /**
     * `initialize`, with whether the source type is registered and what the
     * source reports: an unknown source type throws; otherwise the source is
     * loaded, its topics de-duplicated and its problems stored, the player
     * is marked present, and start-play is requested unless an error was
     * raised.
     */
    method Initialize(registered: bool, sourceType: string, init: InitResult) returns (r: Outcome)
      modifies this
      ensures Next(Fields(), r) == WorkerPlayback.Initialize(old(Fields()), registered, sourceType, init)
    {
      if !registered {
        return Fail(NoSourceMessage + sourceType);
      }
      EmitStateImpl();
      ghost var e := Fields();
      var unique, duplicates := UniqueTopics(init.topics);
      LoadSource(init, unique);
      AddInitProblems(init.problems + duplicates);
      pb := pb.(presence := Present);
      assert Fields() == e.(src := Loaded(e.src, init, unique, e.nextRef), currentTime := Some(TimeObj(init.start, e.nextRef)),
                            problems := InitProblems(e.problems, init.problems + duplicates, 0),
                            presence := Present, nextRef := e.nextRef + 6);
      EmitStateImpl();
      if !pb.hasError {
        SetState(State.StartPlay);
      }
      r := Pass;
    }

    /** The fields `initialize` takes from the source: range, profile, name and topics, the current time at the start. */
    method LoadSource(init: InitResult, unique: seq<Topic>)
      modifies this
      ensures Fields() == old(Fields()).(src := Loaded(old(src), init, unique, old(nextRef)),
                                         currentTime := Some(TimeObj(init.start, old(nextRef))), nextRef := old(nextRef) + 6)
    {
      var start := TimeObj(init.start, nextRef);
      src := Loaded(src, init, unique, nextRef);
      pb := pb.(currentTime := Some(start));
      nextRef := nextRef + 6;
    }

    /** The problems loop of `initialize`: problem `i` is stored under `init-problem-<i>`. */
    method AddInitProblems(ps: seq<Problem>)
      modifies this
      ensures Fields() == old(Fields()).(problems := InitProblems(old(rd.problems), ps, 0))
    {
      for i := 0 to |ps|
        invariant Fields() == old(Fields()).(problems := rd.problems)
        invariant InitProblems(rd.problems, ps, i) == InitProblems(old(rd.problems), ps, 0)
      {
        rd := rd.(problems := rd.problems[InitProblem(i) := ps[i]]);
      }
    }

    /** `_stateIdle`: the checks, then the idle loop holding an abort controller. */
    method StateIdle(rounds: seq<seq<Command>>) returns (r: Outcome)
      modifies this
      ensures Next(Fields(), r) == WorkerPlayback.StateIdle(old(Fields()), rounds)
    {
      if !src.initialized {
        return Fail(UninitializedMessage);
      }
      pb := pb.(isPlaying := false, presence := Present);
      EmitStateImpl();
      if ctl.abortActive {
        return Fail(AbortExistsMessage);
      }
      ctl := ctl.(abortActive := true);
      IdleLoop(rounds);
      r := Pass;
    }

    /** The loop of `_stateIdle`: refresh the progress and emit, then wait out a round of commands, until a state is pending. */
    method IdleLoop(rounds: seq<seq<Command>>)
      modifies this
      ensures Fields() == IdleRounds(old(Fields()), rounds)
    {
      ghost var total := IdleRounds(Fields(), rounds);
      var rest := rounds;
      while true
        invariant IdleRounds(Fields(), rest) == total
        decreases |rest|
      {
        RefreshProgress();
        EmitStateImpl();
        if rest == [] {
          return;
        }
        ApplyCommands(rest[0]);
        if ctl.nextState.Some? {
          return;
        }
        rest := rest[1..];
      }
    }

    /** `this._progress = {...}`: the progress becomes a new object. */
    method RefreshProgress()
      modifies this
      ensures Fields() == old(Fields()).(progressRef := old(nextRef), nextRef := old(nextRef) + 1)
    {
      pb := pb.(progressRef := nextRef);
      nextRef := nextRef + 1;
    }

    /** `resetPlaybackIterator`. */
    method ResetPlaybackIterator(opening: seq<IterResult>) returns (r: Outcome)
      modifies this
      ensures Next(Fields(), r) == ResetIterator(old(Fields()), opening)
    {
      if !src.initialized {
        return Fail(UninitializedMessage);
      }
      if pb.currentTime.None? {
        return Fail(ResetNoTimeMessage);
      }
      rd := rd.(cursor := Some(Cursor(subs.allTopics, pb.currentTime.value.ns + 1, opening, 0)));
      r := Pass;
    }

    /** `_stateResetPlaybackIterator`. */
    method StateReset(opening: seq<IterResult>) returns (r: Outcome)
      modifies this
      ensures Next(Fields(), r) == WorkerPlayback.StateReset(old(Fields()), opening)
    {
      if pb.currentTime.None? {
        return Fail(ResetNoTimeMessage);
      }
      r := ResetPlaybackIterator(opening);
      if r.Fail? {
        return;
      }
      SetState(if pb.isPlaying then Play else Idle);
    }

    /**
     * `_stateSeekBackfill`, with the backfill the source returns, the
     * commands that arrive while it is awaited, and the wall-clock time
     * after it.
     */
    method StateSeekBackfill(backfill: seq<MessageEvent>, meanwhile: seq<Command>, now: nat, opening: seq<IterResult>)
      returns (r: Outcome)
      modifies this
      ensures Next(Fields(), r) == WorkerPlayback.StateSeekBackfill(old(Fields()), backfill, meanwhile, now, opening)
    {
      if !src.initialized {
        return Fail(UninitializedMessage);
      }
      if pb.seekTarget.None? {
        return Pass;
      }
      var target := pb.seekTarget.value;
      rd := rd.(lastMessage := None);
      ctl := ctl.(abortActive := true);
      ApplyCommands(meanwhile);
      if ctl.nextState.None? {
        Backfill(target, backfill, now, opening);
      }
      if ctl.nextState != Some(SeekBackfill) {
        pb := pb.(seekTarget := None);
      }
      ctl := ctl.(abortActive := false);
      r := Pass;
    }

    /** A completed backfill of `_stateSeekBackfill`. */
    method Backfill(target: TimeObj, backfill: seq<MessageEvent>, now: nat, opening: seq<IterResult>)
      requires rd.lastMessage.None? && src.initialized
      modifies this
      ensures Fields() == Backfilled(old(Fields()), target, backfill, now, opening)
    {
      ghost var f := Fields();
      pb := pb.(currentTime := Some(target), lastSeekEmitTime := now, presence := Present);
      StageBatch(backfill);
      assert Fields() == f.(out := f.out.(messages := backfill, messagesRef := f.nextRef), nextRef := f.nextRef + 1,
                            currentTime := Some(target), lastSeekEmitTime := now, presence := Present);
      EmitStateImpl();
      ghost var e := Fields();
      var reset := ResetPlaybackIterator(opening);
      assert Fields() == e.(cursor := Some(Cursor(e.subs.allTopics, target.ns + 1, opening, 0)));
      SetState(if pb.isPlaying then Play else Idle);
    }

    /** `_statePlay`: the checks, then the play loop from the current topic set. */
    method StatePlay(rounds: seq<PlayRound>) returns (r: Outcome)
      modifies this
      ensures Next(Fields(), r) == WorkerPlayback.StatePlay(old(Fields()), rounds)
    {
      if !src.initialized {
        return Fail(UninitializedMessage);
      }
      pb := pb.(presence := Present);
      if pb.currentTime.None? {
        return Fail(PlayNoTimeMessage);
      }
      PlayRounds(subs.allTopicsRef, rounds);
      r := Pass;
    }

    /** The loop of `_statePlay`, for the topic set of identity `topicsRef`. */
    method PlayRounds(topicsRef: nat, rounds: seq<PlayRound>)
      modifies this
      ensures Fields() == PlayLoop(old(Fields()), topicsRef, rounds)
    {
      ghost var total := PlayLoop(Fields(), topicsRef, rounds);
      var rest := rounds;
      while true
        invariant PlayLoop(Fields(), topicsRef, rest) == total
        decreases |rest|
      {
        var stop := PlayPass(topicsRef, rest);
        if stop {
          return;
        }
        rest := rest[1..];
      }
    }

    /** One pass of `_statePlay`'s loop over the rounds `rest`; `stop` when the loop ends in it. */
    method PlayPass(topicsRef: nat, rest: seq<PlayRound>) returns (stop: bool)
      modifies this
      ensures stop ==> Fields() == PlayLoop(old(Fields()), topicsRef, rest)
      ensures !stop ==> rest != [] && PlayLoop(Fields(), topicsRef, rest[1..]) == PlayLoop(old(Fields()), topicsRef, rest)
    {
      if !(pb.isPlaying && !pb.hasError && ctl.nextState.None?) {
        return true;
      }
      if pb.currentTime.Some? && pb.currentTime.value.ns >= src.end.ns {
        SetState(Idle);
        return true;
      }
      if rest == [] {
        return true;
      }
      stop := PlayOneRound(topicsRef, rest[0]);
    }

    /** One round of `_statePlay`'s loop; `stop` when the loop ends with it. */
    method PlayOneRound(topicsRef: nat, round: PlayRound) returns (stop: bool)
      modifies this
      ensures PlayStep(old(Fields()), topicsRef, round) == if stop then Stop(Fields()) else Go(Fields())
    {
      var t := Tick(round.rangeNs, round.during);
      if t.Fail? {
        SetError(t.message);
        EmitStateImpl();
        return true;
      }
      if ctl.nextState.Some? {
        return true;
      }
      if subs.allTopicsRef != topicsRef {
        rd := rd.(lastMessage := None);
        SetState(State.ResetPlaybackIterator);
        return true;
      }
      RefreshProgress();
      ApplyCommands(round.afterTick);
      stop := false;
    }

    /** One pass of `_runState`'s switch. */
    method RunPass(s: State, input: StepInput) returns (r: Outcome)
      modifies this
      ensures Next(Fields(), r) == WorkerPlayback.RunPass(old(Fields()), s, input)
    {
      match s
      case Preinit => r := Pass;
      case StartPlay => r := StateStartPlay(input.opening, input.during);
      case Idle => r := StateIdle(input.idleRounds);
      case SeekBackfill => r := StateSeekBackfill(input.backfill, input.meanwhile, input.now, input.opening);
      case Play => r := StatePlay(input.playRounds);
      case ResetPlaybackIterator => r := StateReset(input.opening);
    }

    /** `_runState`; returns the states run, in order. */
    method RunState(steps: seq<StepInput>) returns (states: seq<State>)
      modifies this
      ensures (Fields(), states) == WorkerPlayback.RunState(old(Fields()), steps)
    {
      if ctl.runningState {
        return [];
      }
      ctl := ctl.(runningState := true);
      ghost var f := Fields();
      states := RunStates(steps);
      ghost var g := Fields();
      ctl := ctl.(runningState := false);
      assert Fields() == g.(runningState := false);
    }

    /** The loop of `_runState`. */
    method RunStates(steps: seq<StepInput>) returns (states: seq<State>)
      modifies this
      ensures (Fields(), states) == RunLoop(old(Fields()), steps)
    {
      ghost var total := RunLoop(Fields(), steps);
      states := [];
      var rest := steps;
      assert [] + total.1 == total.1;
      while true
        invariant Ran(Fields(), states, rest) == total
        decreases |rest|
      {
        var stop;
        states, rest, stop := RunOne(states, rest);
        if stop {
          return;
        }
      }
    }

    /** What the loop of `_runState` ends with, from the fields `f`, the states `states` run so far and the steps `rest`. */
    ghost function Ran(f: WorkerFields, states: seq<State>, rest: seq<StepInput>): (WorkerFields, seq<State>) {
      var t := RunLoop(f, rest);
      (t.0, states + t.1)
    }

    /**
     * One pass of `_runState`'s loop on the steps `rest`, the states run so
     * far `states`: unless no state is pending or no input remains, the
     * pending state runs and is added to them; `stop` when the loop ends here.
     */
    method RunOne(states: seq<State>, rest: seq<StepInput>) returns (states': seq<State>, rest': seq<StepInput>, stop: bool)
      modifies this
      ensures stop ==> (Fields(), states') == Ran(old(Fields()), states, rest)
      ensures !stop ==> |rest'| < |rest| && Ran(Fields(), states', rest') == Ran(old(Fields()), states, rest)
    {
      ghost var f := Fields();
      var ran;
      ran, stop := RunPending(rest);
      states' := states + ran;
      if stop {
        assert RunLoop(f, rest) == (Fields(), ran);
        return states', rest, true;
      }
      rest' := rest[1..];
      assert ran == [ran[0]];
      ghost var t1 := RunLoop(Fields(), rest');
      assert RunLoop(f, rest) == (t1.0, ran + t1.1);
      assert states + (ran + t1.1) == states' + t1.1;
    }

    /** The body of one pass: the pending state, if any and if input remains, becomes the current one and runs. */
    method RunPending(rest: seq<StepInput>) returns (ran: seq<State>, stop: bool)
      modifies this
      ensures stop ==> RunStep(old(Fields()), rest) == RunStop(Fields(), ran)
      ensures !stop ==> |ran| == 1 && RunStep(old(Fields()), rest) == RunGo(Fields(), ran[0])
    {
      if ctl.nextState.None? || rest == [] {
        return [], true;
      }
      var s := ctl.nextState.value;
      ctl := ctl.(state := s, nextState := None);
      var r := RunPass(s, rest[0]);
      ran, stop := [s], r.Fail?;
      if stop {
        SetError(r.message);
        EmitStateImpl();
      }
    }
  }

  /**
   * The de-duplication loop of `initialize`: a topic whose name was seen
   * before is reported as a duplicate, any other is kept, in order.
   */
  method UniqueTopics(topics: seq<Topic>) returns (unique: seq<Topic>, duplicates: seq<Problem>)
    ensures (unique, duplicates) == DedupTopics(topics, {})
  {
    unique, duplicates := [], [];
    var seen: set<string> := {};
    var rest := topics;
    ghost var total := DedupTopics(topics, {});
    assert [] + total.0 == total.0 && [] + total.1 == total.1;
    while rest != []
      invariant var d := DedupTopics(rest, seen); (unique + d.0, duplicates + d.1) == total
      decreases |rest|
    {
      var t := rest[0];
      if t.name in seen {
        var d := DedupTopics(rest[1..], seen);
        assert duplicates + ([DuplicateProblem(t.name)] + d.1) == (duplicates + [DuplicateProblem(t.name)]) + d.1;
        duplicates := duplicates + [DuplicateProblem(t.name)];
      } else {
        var d := DedupTopics(rest[1..], seen + {t.name});
        assert unique + ([t] + d.0) == (unique + [t]) + d.0;
        seen := seen + {t.name};
        unique := unique + [t];
      }
      rest := rest[1..];
    }
    assert unique + [] == unique && duplicates + [] == duplicates;
  }

  /**
   * The diff loop of `_emitStateImpl`: every key of the snapshot, taken in
   * the order `keys` lists them, whose value is not the previous snapshot's.
   */
  method DiffSnapshot(keys: seq<Key>, prev: Option<map<Key, Val>>, snap: map<Key, Val>) returns (partial: map<Key, Val>)
    requires snap.Keys == set k | k in keys
    ensures partial == Changed(prev, snap)
  {
    partial := map[];
    for i := 0 to |keys|
      invariant forall k :: k in partial <==> k in keys[..i] && ReadPrev(prev, k) != snap[k]
      invariant forall k :: k in partial ==> partial[k] == snap[k]
    {
      assert keys[..i + 1] == keys[..i] + [keys[i]];
      if ReadPrev(prev, keys[i]) != snap[keys[i]] {
        partial := partial[keys[i] := snap[keys[i]]];
      }
    }
    assert keys[..|keys|] == keys;
  }
}

/**
 * The data-source state builder of the data-extension adapter: a closure
 * that keeps the inputs it saw last, and on each call updates one shared
 * state object field by field, for the watched fields only, and says
 * whether anything was updated.
 *
 * Objects the caller passes in are known by their identity; the builder
 * compares them with `===`, so only identities matter. The builder's own
 * new objects (the variables map, the all-frames array) take fresh
 * identities from a counter.
 */
module DataSourceState {
  import opened Wrappers
  import opened JsValues

  /** The fields of `DataSourceState` the builder maintains. */
  datatype Field = DidSeek | CurrentFrame | Parameters | Variables | Topics | AllFrames | CurrentTime | AppSettings

  /** A message event: its topic, and its identity. */
  datatype MessageEvent = MessageEvent(topic: string, ref: nat)

  /** An array of message events, with its identity. */
  datatype Frame = Frame(ref: nat, events: seq<MessageEvent>)

  /** A block of the message cache: `Object.values(messagesByTopic)`, in key order. */
  datatype Block = Block(messagesByTopic: seq<seq<MessageEvent>>)

  /** The blocks array of the message cache, with its identity; an entry may be undefined. */
  datatype Blocks = Blocks(ref: nat, items: seq<Option<Block>>)

  /** The global variables object, with its identity, as its entries in `Object.entries` order. */
  datatype Globals = Globals(ref: nat, entries: seq<(string, Val)>)

  /** A `Map` built from entries, with its identity. */
  datatype VariablesMap = VariablesMap(ref: nat, entries: seq<(string, Val)>)

  /** The subscribed topic names, with the identity of their array. */
  datatype SubscribedTopics = SubscribedTopics(ref: nat, names: seq<string>)

  /** What the builder reads of `playerState.activeData`. */
  datatype ActiveData = ActiveData(lastSeekTime: real, parameters: Val, currentTime: Val)

  /** One call's input; what is read through an absent player state or active data is absent. */
  datatype Input = Input(
    watched: set<Field>,
    activeData: Option<ActiveData>,
    blocks: Option<Blocks>,
    appSettings: Val,
    currentFrame: Option<Frame>,
    globals: Globals,
    sortedTopics: Val,
    subscribed: SubscribedTopics)

  /** The shared state object; `None` and `Undefined` are properties never set or set to `undefined`. */
  datatype State = State(
    didSeek: Option<bool>,
    currentFrame: Option<Frame>,
    parameters: Val,
    variables: Option<VariablesMap>,
    topics: Val,
    allFrames: Option<Frame>,
    currentTime: Val,
    appSettings: Val)

  /** The state object as created: no property set. */
  const EmptyState: State := State(None, None, Undefined, None, Undefined, None, Undefined, Undefined)

  /** The identity of the module's `EmptyParameters` map. */
  const EmptyParametersRef: nat := 0

  /** The identity of `EMPTY_GLOBAL_VARIABLES`. */
  const EmptyGlobalsRef: nat := 1

  /**
   * The closure's variables: the globals, blocks, seek time and subscribed
   * topics seen last, the state object, and the counter for new objects.
   */
  datatype BuilderFields = BuilderFields(
    prevVariables: nat,
    prevBlocks: Option<nat>,
    prevSeekTime: Option<real>,
    prevSubscribedTopics: Option<nat>,
    state: State,
    nextRef: nat)

  /** The fields and whether any watched field was updated so far in the call. */
  datatype Acc = Acc(b: BuilderFields, updated: bool)

  /** `activeData?.lastSeekTime`. */
  function LastSeekTime(input: Input): Option<real> {
    if input.activeData.Some? then Some(input.activeData.value.lastSeekTime) else None
  }

  /** `activeData?.parameters ?? EmptyParameters`. */
  function ParametersOf(input: Input): Val {
    Coalesce(if input.activeData.Some? then input.activeData.value.parameters else Undefined, Obj(EmptyParametersRef))
  }

  /** `activeData?.currentTime`. */
  function CurrentTimeOf(input: Input): Val {
    if input.activeData.Some? then input.activeData.value.currentTime else Undefined
  }

  /** `frame?.length !== 0`: the frame is absent or holds a message. */
  predicate NotEmpty(frame: Option<Frame>) {
    frame.None? || |frame.value.events| != 0
  }

  // ---------------------------------------------------------------- frames

  /** The events of `events` whose topic is subscribed, in order. */
  function SubscribedEvents(events: seq<MessageEvent>, names: seq<string>): (r: seq<MessageEvent>)
    ensures |r| <= |events|
  {
    if events == [] then []
    else
      var last := events[|events| - 1];
      SubscribedEvents(events[..|events| - 1], names) + (if last.topic in names then [last] else [])
  }

  /** The subscribed events of every message array of a block, array after array. */
  function BlockFrames(lists: seq<seq<MessageEvent>>, names: seq<string>): seq<MessageEvent> {
    if lists == [] then []
    else BlockFrames(lists[..|lists| - 1], names) + SubscribedEvents(lists[|lists| - 1], names)
  }

  /** The subscribed events of every defined block, block after block. */
  function AllFramesOf(blocks: seq<Option<Block>>, names: seq<string>): seq<MessageEvent> {
    if blocks == [] then []
    else
      var last := blocks[|blocks| - 1];
      AllFramesOf(blocks[..|blocks| - 1], names) + (if last.Some? then BlockFrames(last.value.messagesByTopic, names) else [])
  }

  /** An event is kept exactly when it is one of the events and its topic is subscribed. */
  lemma {:induction false} SubscribedEventsSpec(events: seq<MessageEvent>, names: seq<string>, m: MessageEvent)
    ensures m in SubscribedEvents(events, names) <==> m in events && m.topic in names
    decreases |events|
  {
    if events != [] {
      var init := events[..|events| - 1];
      SubscribedEventsSpec(init, names, m);
      assert events == init + [events[|events| - 1]];
    }
  }

  /** An event is in a block's frames exactly when it is a subscribed event of one of its arrays. */
  lemma {:induction false} BlockFramesSpec(lists: seq<seq<MessageEvent>>, names: seq<string>, m: MessageEvent)
    ensures m in BlockFrames(lists, names) <==> m.topic in names && exists j :: 0 <= j < |lists| && m in lists[j]
    decreases |lists|
  {
    if lists != [] {
      var n := |lists| - 1;
      var init := lists[..n];
      BlockFramesSpec(init, names, m);
      SubscribedEventsSpec(lists[n], names, m);
      assert (exists j :: 0 <= j < |lists| && m in lists[j]) <==> (exists j :: 0 <= j < n && m in init[j]) || m in lists[n] by {
        forall j | 0 <= j < n
          ensures init[j] == lists[j]
        {
        }
      }
    }
  }

  /**
   * The all-frames array holds exactly the events of the defined blocks
   * whose topic is subscribed.
   */
  lemma {:induction false} AllFramesSpec(blocks: seq<Option<Block>>, names: seq<string>, m: MessageEvent)
    ensures m in AllFramesOf(blocks, names) <==>
              m.topic in names && exists i, j :: 0 <= i < |blocks| && blocks[i].Some? &&
                                                 0 <= j < |blocks[i].value.messagesByTopic| &&
                                                 m in blocks[i].value.messagesByTopic[j]
    decreases |blocks|
  {
    if blocks != [] {
      var n := |blocks| - 1;
      var init := blocks[..n];
      AllFramesSpec(init, names, m);
      if blocks[n].Some? {
        BlockFramesSpec(blocks[n].value.messagesByTopic, names, m);
      }
      if exists i, j :: 0 <= i < |blocks| && blocks[i].Some? && 0 <= j < |blocks[i].value.messagesByTopic| &&
                        m in blocks[i].value.messagesByTopic[j] {
        var i, j :| 0 <= i < |blocks| && blocks[i].Some? && 0 <= j < |blocks[i].value.messagesByTopic| &&
                    m in blocks[i].value.messagesByTopic[j];
        if i < n {
          assert init[i] == blocks[i];
        }
      }
      if exists i, j :: 0 <= i < n && init[i].Some? && 0 <= j < |init[i].value.messagesByTopic| &&
                        m in init[i].value.messagesByTopic[j] {
        var i, j :| 0 <= i < n && init[i].Some? && 0 <= j < |init[i].value.messagesByTopic| &&
                    m in init[i].value.messagesByTopic[j];
        assert blocks[i] == init[i];
      }
    }
  }

  // ---------------------------------------------------------------- one call

  /** The subscribed topics: a new array reference forgets the blocks seen last. */
  function TopicsStep(b: BuilderFields, input: Input): (c: BuilderFields)
    ensures c.prevSubscribedTopics == Some(input.subscribed.ref) && c.state == b.state
  {
    var blocks := if Some(input.subscribed.ref) != b.prevSubscribedTopics then None else b.prevBlocks;
    b.(prevBlocks := blocks, prevSubscribedTopics := Some(input.subscribed.ref))
  }

  /** `didSeek`: whether the last seek time is not the one seen on the previous call. */
  function DidSeekStep(a: Acc, input: Input): (c: Acc)
    ensures c.b.state == a.b.state.(didSeek := c.b.state.didSeek)
    ensures DidSeek !in input.watched ==> c == a
  {
    if DidSeek !in input.watched then a
    else
      var didSeek := a.b.prevSeekTime != LastSeekTime(input);
      var changed := Some(didSeek) != a.b.state.didSeek;
      var s := if changed then a.b.state.(didSeek := Some(didSeek)) else a.b.state;
      Acc(a.b.(state := s, prevSeekTime := LastSeekTime(input)), a.updated || changed)
  }

  /** `currentFrame`: replaced unless the old and the new frame are both present and empty. */
  function CurrentFrameStep(a: Acc, input: Input): (c: Acc)
    ensures c.b.state == a.b.state.(currentFrame := c.b.state.currentFrame)
    ensures CurrentFrame !in input.watched ==> c == a
  {
    if CurrentFrame in input.watched && (NotEmpty(a.b.state.currentFrame) || NotEmpty(input.currentFrame)) then
      Acc(a.b.(state := a.b.state.(currentFrame := input.currentFrame)), true)
    else a
  }

  /** `parameters`: the active data's parameters, or the shared empty map, when not the stored reference. */
  function ParametersStep(a: Acc, input: Input): (c: Acc)
    ensures c.b.state == a.b.state.(parameters := c.b.state.parameters)
    ensures Parameters !in input.watched ==> c == a
  {
    var p := ParametersOf(input);
    if Parameters in input.watched && p != a.b.state.parameters then
      Acc(a.b.(state := a.b.state.(parameters := p)), true)
    else a
  }

  /** `variables`: a new map of the globals' entries when the globals object is not the one seen last. */
  function VariablesStep(a: Acc, input: Input): (c: Acc)
    ensures c.b.state == a.b.state.(variables := c.b.state.variables)
    ensures Variables !in input.watched ==> c == a
  {
    if Variables in input.watched && input.globals.ref != a.b.prevVariables then
      var vars := VariablesMap(a.b.nextRef, input.globals.entries);
      Acc(a.b.(prevVariables := input.globals.ref, state := a.b.state.(variables := Some(vars)),
               nextRef := a.b.nextRef + 1), true)
    else a
  }

  /** `topics`: the sorted topics when not the stored reference. */
  function TopicsFieldStep(a: Acc, input: Input): (c: Acc)
    ensures c.b.state == a.b.state.(topics := c.b.state.topics)
    ensures Topics !in input.watched ==> c == a
  {
    if Topics in input.watched && input.sortedTopics != a.b.state.topics then
      Acc(a.b.(state := a.b.state.(topics := input.sortedTopics)), true)
    else a
  }

  /**
   * `allFrames`: with blocks that are not the ones seen last, a new array of
   * their subscribed events; the blocks are remembered either way.
   */
  function AllFramesStep(a: Acc, input: Input): (c: Acc)
    ensures c.b.state == a.b.state.(allFrames := c.b.state.allFrames)
    ensures AllFrames !in input.watched ==> c == a
  {
    if AllFrames !in input.watched then a
    else
      var newBlocks := if input.blocks.Some? then Some(input.blocks.value.ref) else None;
      if input.blocks.Some? && a.b.prevBlocks != newBlocks then
        var frames := Frame(a.b.nextRef, AllFramesOf(input.blocks.value.items, input.subscribed.names));
        Acc(a.b.(state := a.b.state.(allFrames := Some(frames)), prevBlocks := newBlocks, nextRef := a.b.nextRef + 1), true)
      else Acc(a.b.(prevBlocks := newBlocks), a.updated)
  }

  /**
   * `currentTime`: a defined time that is not the stored one is stored;
   * otherwise (an undefined time, or the stored one again) the stored time
   * is cleared, which counts as an update when one was stored.
   */
  function CurrentTimeStep(a: Acc, input: Input): (c: Acc)
    ensures c.b.state == a.b.state.(currentTime := c.b.state.currentTime)
    ensures CurrentTime !in input.watched ==> c == a
  {
    if CurrentTime !in input.watched then a
    else
      var t := CurrentTimeOf(input);
      if Defined(t) && t != a.b.state.currentTime then
        Acc(a.b.(state := a.b.state.(currentTime := t)), true)
      else
        Acc(a.b.(state := a.b.state.(currentTime := Undefined)), a.updated || Defined(a.b.state.currentTime))
  }

  /** `appSettings`: the input's settings when not the stored reference. */
  function AppSettingsStep(a: Acc, input: Input): (c: Acc)
    ensures c.b.state == a.b.state.(appSettings := c.b.state.appSettings)
    ensures AppSettings !in input.watched ==> c == a
  {
    if AppSettings in input.watched && input.appSettings != a.b.state.appSettings then
      Acc(a.b.(state := a.b.state.(appSettings := input.appSettings)), true)
    else a
  }

  /** One call of `buildDataSourceState`: the fields after it, and whether it returns the state object. */
  function Build(b: BuilderFields, input: Input): Acc {
    var a0 := Acc(TopicsStep(b, input), false);
    var a1 := DidSeekStep(a0, input);
    var a2 := CurrentFrameStep(a1, input);
    var a3 := ParametersStep(a2, input);
    var a4 := VariablesStep(a3, input);
    var a5 := TopicsFieldStep(a4, input);
    var a6 := AllFramesStep(a5, input);
    var a7 := CurrentTimeStep(a6, input);
    AppSettingsStep(a7, input)
  }

  // ---------------------------------------------------------------- properties of a call

  /** A call leaves every field it does not watch as it was. */
  lemma UnwatchedUnchanged(b: BuilderFields, input: Input)
    ensures var s, t := b.state, Build(b, input).b.state;
            && (DidSeek !in input.watched ==> t.didSeek == s.didSeek)
            && (CurrentFrame !in input.watched ==> t.currentFrame == s.currentFrame)
            && (Parameters !in input.watched ==> t.parameters == s.parameters)
            && (Variables !in input.watched ==> t.variables == s.variables)
            && (Topics !in input.watched ==> t.topics == s.topics)
            && (AllFrames !in input.watched ==> t.allFrames == s.allFrames)
            && (CurrentTime !in input.watched ==> t.currentTime == s.currentTime)
            && (AppSettings !in input.watched ==> t.appSettings == s.appSettings)
  {
  }

  /** The stored current time is never `null`: it starts undefined and only a defined time is stored. */
  lemma CurrentTimeNeverNull(b: BuilderFields, input: Input)
    requires b.state.currentTime != Null
    ensures Build(b, input).b.state.currentTime != Null
  {
  }

  /**
   * A call that returns `undefined` has changed no field of the state
   * object (whose stored current time, as `CurrentTimeNeverNull` shows, is
   * not `null`).
   */
  lemma NoUpdateNoChange(b: BuilderFields, input: Input)
    requires b.state.currentTime != Null
    ensures !Build(b, input).updated ==> Build(b, input).b.state == b.state
  {
  }

  /** Watching nothing, a call returns `undefined`. */
  lemma NothingWatchedNoUpdate(b: BuilderFields, input: Input)
    requires input.watched == {}
    ensures !Build(b, input).updated && Build(b, input).b.state == b.state
  {
  }

  /** `didSeek` holds exactly when the last seek time differs from the one seen on the previous call, which it replaces. */
  lemma DidSeekSpec(b: BuilderFields, input: Input)
    requires DidSeek in input.watched
    ensures var c := Build(b, input).b;
            && c.state.didSeek == Some(b.prevSeekTime != LastSeekTime(input))
            && c.prevSeekTime == LastSeekTime(input)
  {
  }

  /** The current frame is replaced, and counts as an update, unless the old and new frames are both present and empty. */
  lemma CurrentFrameSpec(b: BuilderFields, input: Input)
    requires CurrentFrame in input.watched
    ensures var r := Build(b, input);
            if NotEmpty(b.state.currentFrame) || NotEmpty(input.currentFrame) then
              r.updated && r.b.state.currentFrame == input.currentFrame
            else r.b.state.currentFrame == b.state.currentFrame
  {
  }

  /** Parameters, topics and app settings take the input's reference, and count as an update exactly when it is a new one. */
  lemma ReferenceFieldsSpec(b: BuilderFields, input: Input)
    ensures var r := Build(b, input);
            && (Parameters in input.watched ==>
                  r.b.state.parameters == ParametersOf(input) && (ParametersOf(input) != b.state.parameters ==> r.updated))
            && (Topics in input.watched ==>
                  r.b.state.topics == input.sortedTopics && (input.sortedTopics != b.state.topics ==> r.updated))
            && (AppSettings in input.watched ==>
                  r.b.state.appSettings == input.appSettings && (input.appSettings != b.state.appSettings ==> r.updated))
  {
  }

  /** The variables map is rebuilt from the globals' entries exactly when the globals object is a new one. */
  lemma VariablesSpec(b: BuilderFields, input: Input)
    requires Variables in input.watched
    ensures var r := Build(b, input).b;
            && r.prevVariables == input.globals.ref
            && (input.globals.ref != b.prevVariables ==>
                  r.state.variables.Some? && r.state.variables.value.entries == input.globals.entries)
            && (input.globals.ref == b.prevVariables ==> r.state.variables == b.state.variables)
  {
  }

  /**
   * With blocks present, all frames are recomputed when the blocks
   * reference is new, and always when the subscribed-topics reference is
   * new; they then hold exactly the subscribed events of the blocks.
   */
  lemma AllFramesRecomputed(b: BuilderFields, input: Input)
    requires AllFrames in input.watched && input.blocks.Some?
    requires Some(input.blocks.value.ref) != b.prevBlocks || Some(input.subscribed.ref) != b.prevSubscribedTopics
    ensures var r := Build(b, input);
            && r.updated
            && r.b.state.allFrames.Some?
            && r.b.state.allFrames.value.events == AllFramesOf(input.blocks.value.items, input.subscribed.names)
            && r.b.prevBlocks == Some(input.blocks.value.ref)
  {
  }

  /** With the same blocks and subscribed topics as last time, all frames are kept. */
  lemma AllFramesKept(b: BuilderFields, input: Input)
    requires input.blocks.Some? && Some(input.blocks.value.ref) == b.prevBlocks
    requires Some(input.subscribed.ref) == b.prevSubscribedTopics
    ensures Build(b, input).b.state.allFrames == b.state.allFrames
  {
  }

  /**
   * The current time as written: a defined time equal to the stored one
   * clears the stored one and counts as an update; a defined time that is
   * not the stored one is stored.
   */
  lemma CurrentTimeSpec(b: BuilderFields, input: Input)
    requires CurrentTime in input.watched
    ensures var r := Build(b, input);
            && (Defined(CurrentTimeOf(input)) && CurrentTimeOf(input) == b.state.currentTime ==>
                  r.b.state.currentTime == Undefined && r.updated)
            && (Defined(CurrentTimeOf(input)) && CurrentTimeOf(input) != b.state.currentTime ==>
                  r.b.state.currentTime == CurrentTimeOf(input) && r.updated)
            && (!Defined(CurrentTimeOf(input)) ==> r.b.state.currentTime == Undefined)
  {
  }

  /**
   * Called again and again with the same defined current time, the stored
   * time alternates between that time and `undefined`, and every call
   * reports an update.
   */
  lemma {:induction false} CurrentTimeAlternates(b: BuilderFields, input: Input)
    requires CurrentTime in input.watched && Defined(CurrentTimeOf(input))
    requires b.state.currentTime == CurrentTimeOf(input)
    ensures var r1 := Build(b, input);
            var r2 := Build(r1.b, input);
            && r1.updated && r1.b.state.currentTime == Undefined
            && r2.updated && r2.b.state.currentTime == CurrentTimeOf(input)
  {
    CurrentTimeSpec(b, input);
    var r1 := Build(b, input);
    CurrentTimeSpec(r1.b, input);
  }

  // ---------------------------------------------------------------- the closure

  /** `initDataSourceStateBuilder` and the closure it returns. */
  class DataSourceStateBuilder {
    var prevVariables: nat
    var prevBlocks: Option<nat>
    var prevSeekTime: Option<real>
    var prevSubscribedTopics: Option<nat>
    /** `prevDataSourceState`, the one state object every call returns. */
    var state: State
    /** The identity of the state object. */
    const stateRef: nat
    var nextRef: nat

    function Fields(): BuilderFields
      reads this
    {
      BuilderFields(prevVariables, prevBlocks, prevSeekTime, prevSubscribedTopics, state, nextRef)
    }

    /** `initDataSourceStateBuilder`: nothing seen yet, the empty globals as the last globals, an empty state object numbered `ref`. */
    constructor (ref: nat)
      ensures Fields() == BuilderFields(EmptyGlobalsRef, None, None, None, EmptyState, ref + 1)
      ensures stateRef == ref
    {
      prevVariables := EmptyGlobalsRef;
      prevBlocks := None;
      prevSeekTime := None;
      prevSubscribedTopics := None;
      state := EmptyState;
      stateRef := ref;
      nextRef := ref + 1;
    }

    /** `buildDataSourceState`: the state object when a watched field was updated, `undefined` otherwise. */
    method BuildDataSourceState(input: Input) returns (r: Val)
      modifies this
      ensures Fields() == Build(old(Fields()), input).b
      ensures r == if Build(old(Fields()), input).updated then Obj(stateRef) else Undefined
    {
      if Some(input.subscribed.ref) != prevSubscribedTopics {
        prevBlocks := None;
      }
      prevSubscribedTopics := Some(input.subscribed.ref);
      var updated := false;
      ghost var a := Acc(Fields(), false);
      updated := UpdateDidSeek(input, updated);
      a := DidSeekStep(a, input);
      updated := UpdateCurrentFrame(input, updated);
      a := CurrentFrameStep(a, input);
      updated := UpdateParameters(input, updated);
      a := ParametersStep(a, input);
      updated := UpdateVariables(input, updated);
      a := VariablesStep(a, input);
      updated := UpdateTopics(input, updated);
      a := TopicsFieldStep(a, input);
      updated := UpdateAllFrames(input, updated);
      a := AllFramesStep(a, input);
      updated := UpdateCurrentTime(input, updated);
      a := CurrentTimeStep(a, input);
      updated := UpdateAppSettings(input, updated);
      r := if updated then Obj(stateRef) else Undefined;
    }

    method UpdateDidSeek(input: Input, u: bool) returns (updated: bool)
      modifies this
      ensures Acc(Fields(), updated) == DidSeekStep(Acc(old(Fields()), u), input)
    {
      updated := u;
      if DidSeek in input.watched {
        var didSeek := prevSeekTime != LastSeekTime(input);
        if Some(didSeek) != state.didSeek {
          state := state.(didSeek := Some(didSeek));
          updated := true;
        }
        prevSeekTime := LastSeekTime(input);
      }
    }

    method UpdateCurrentFrame(input: Input, u: bool) returns (updated: bool)
      modifies this
      ensures Acc(Fields(), updated) == CurrentFrameStep(Acc(old(Fields()), u), input)
    {
      updated := u;
      if CurrentFrame in input.watched {
        if NotEmpty(state.currentFrame) || NotEmpty(input.currentFrame) {
          updated := true;
          state := state.(currentFrame := input.currentFrame);
        }
      }
    }

    method UpdateParameters(input: Input, u: bool) returns (updated: bool)
      modifies this
      ensures Acc(Fields(), updated) == ParametersStep(Acc(old(Fields()), u), input)
    {
      updated := u;
      if Parameters in input.watched {
        var parameters := ParametersOf(input);
        if parameters != state.parameters {
          updated := true;
          state := state.(parameters := parameters);
        }
      }
    }

    method UpdateVariables(input: Input, u: bool) returns (updated: bool)
      modifies this
      ensures Acc(Fields(), updated) == VariablesStep(Acc(old(Fields()), u), input)
    {
      updated := u;
      if Variables in input.watched {
        if input.globals.ref != prevVariables {
          updated := true;
          prevVariables := input.globals.ref;
          state := state.(variables := Some(VariablesMap(nextRef, input.globals.entries)));
          nextRef := nextRef + 1;
        }
      }
    }

    method UpdateTopics(input: Input, u: bool) returns (updated: bool)
      modifies this
      ensures Acc(Fields(), updated) == TopicsFieldStep(Acc(old(Fields()), u), input)
    {
      updated := u;
      if Topics in input.watched {
        if input.sortedTopics != state.topics {
          updated := true;
          state := state.(topics := input.sortedTopics);
        }
      }
    }

    method UpdateAllFrames(input: Input, u: bool) returns (updated: bool)
      modifies this
      ensures Acc(Fields(), updated) == AllFramesStep(Acc(old(Fields()), u), input)
    {
      updated := u;
      if AllFrames in input.watched {
        var newBlocks := if input.blocks.Some? then Some(input.blocks.value.ref) else None;
        if input.blocks.Some? && prevBlocks != newBlocks {
          updated := true;
          var frames := CollectFrames(input.blocks.value.items, input.subscribed.names);
          state := state.(allFrames := Some(Frame(nextRef, frames)));
          nextRef := nextRef + 1;
        }
        prevBlocks := newBlocks;
      }
    }

    method UpdateCurrentTime(input: Input, u: bool) returns (updated: bool)
      modifies this
      ensures Acc(Fields(), updated) == CurrentTimeStep(Acc(old(Fields()), u), input)
    {
      updated := u;
      if CurrentTime in input.watched {
        var currentTime := CurrentTimeOf(input);
        if Defined(currentTime) && currentTime != state.currentTime {
          updated := true;
          state := state.(currentTime := currentTime);
        } else {
          if Defined(state.currentTime) {
            updated := true;
          }
          state := state.(currentTime := Undefined);
        }
      }
    }

    method UpdateAppSettings(input: Input, u: bool) returns (updated: bool)
      modifies this
      ensures Acc(Fields(), updated) == AppSettingsStep(Acc(old(Fields()), u), input)
    {
      updated := u;
      if AppSettings in input.watched {
        if state.appSettings != input.appSettings {
          updated := true;
          state := state.(appSettings := input.appSettings);
        }
      }
    }
  }

  /** The nested loops of `allFrames`: every subscribed event of every defined block, in order. */
  method CollectFrames(blocks: seq<Option<Block>>, names: seq<string>) returns (frames: seq<MessageEvent>)
    ensures frames == AllFramesOf(blocks, names)
  {
    frames := [];
    for i := 0 to |blocks|
      invariant frames == AllFramesOf(blocks[..i], names)
    {
      assert blocks[..i + 1][..i] == blocks[..i];
      if blocks[i].None? {
        continue;
      }
      var lists := blocks[i].value.messagesByTopic;
      ghost var before := frames;
      for j := 0 to |lists|
        invariant frames == before + BlockFrames(lists[..j], names)
      {
        assert lists[..j + 1][..j] == lists[..j];
        var events := lists[j];
        ghost var mid := frames;
        for k := 0 to |events|
          invariant frames == mid + SubscribedEvents(events[..k], names)
        {
          assert events[..k + 1][..k] == events[..k];
          if events[k].topic in names {
            frames := frames + [events[k]];
          }
        }
        assert events[..|events|] == events;
      }
      assert lists[..|lists|] == lists;
    }
    assert blocks[..|blocks|] == blocks;
  }
}

/**
 * The player half of the worker-backed iterable player: it owns the full
 * `PlayerState` handed to the application and folds into it every partial
 * snapshot the playback worker emits.
 */
module WorkerIterablePlayer {
  import opened Wrappers
  import opened JsValues
  import opened PlaybackState

  const SetListenerAgainMessage: string := "Cannot setListener again"
  const ParameterUnsupportedMessage: string := "Parameter editing is not supported by this data source"
  const PublishUnsupportedMessage: string := "Publishing is not supported by this data source"
  const ServiceUnsupportedMessage: string := "Service calls are not supported by this data source"

  /** The number of objects `activeData`'s defaults allocate. */
  const DefaultObjects: nat := 7

  /**
   * The `activeData` a first emission starts from: no messages, zero times,
   * paused at speed 1, no seek; each object literal is a new object
   * numbered from `ref` on.
   */
  function DefaultActiveData(ref: nat): (d: map<Key, Val>)
    ensures d.Keys <= ActiveDataKeys
    ensures Read(d, IsPlaying) == Bool(false) && Read(d, Speed) == Num(1.0)
    ensures Read(d, LastSeekTime) == Num(0.0) && Read(d, TotalBytesReceived) == Num(0.0)
    ensures forall k :: k in d && d[k].Obj? ==> ref <= d[k].ref < ref + DefaultObjects
  {
    map[
      Messages := Obj(ref),
      TotalBytesReceived := Num(0.0),
      CurrentTime := Obj(ref + 1),
      StartTime := Obj(ref + 2),
      EndTime := Obj(ref + 3),
      IsPlaying := Bool(false),
      Speed := Num(1.0),
      LastSeekTime := Num(0.0),
      Topics := Obj(ref + 4),
      TopicStats := Obj(ref + 5),
      Datatypes := Obj(ref + 6)]
  }

  class Player {
    /** Whether `_listener` is set. */
    var hasListener: bool
    /** The top-level properties of `_playerState`. */
    var top: map<Key, Val>
    /** `_playerState.activeData`, absent until the first emission. */
    var activeData: Option<map<Key, Val>>
    /** Every state handed to the listener, as its top-level properties and its active data. */
    var delivered: seq<(map<Key, Val>, map<Key, Val>)>
    /** The identity the next new object gets. */
    var nextRef: nat

    /** The state shape: top-level keys at the top, active-data keys under `activeData`. */
    ghost predicate Valid()
      reads this
    {
      && top.Keys <= TopKeys
      && (activeData.Some? ==> activeData.value.Keys <= ActiveDataKeys)
      && (delivered != [] ==> activeData.Some?)
    }

    /** Not present, empty progress and capabilities, no profile, an empty player id. */
    constructor ()
      ensures Valid()
      ensures !hasListener && activeData.None? && delivered == []
      ensures Read(top, Presence) == PresenceVal(NotPresent) && Read(top, PlayerId) == Str("")
      ensures Read(top, Profile) == Undefined && Read(top, Name) == Undefined
      ensures Read(top, Progress).Obj? && Read(top, Capabilities).Obj?
      ensures Read(top, Progress) != Read(top, Capabilities)
    {
      hasListener := false;
      top := map[
        Presence := PresenceVal(NotPresent),
        Progress := Obj(0),
        Capabilities := Obj(1),
        Profile := Undefined,
        PlayerId := Str("")];
      activeData := None;
      delivered := [];
      nextRef := 2;
    }

    /** setListener: a second listener is refused with an error and changes nothing. */
    method SetListener() returns (r: Outcome)
      modifies this
      ensures old(hasListener) ==> r == Fail(SetListenerAgainMessage) && hasListener
      ensures !old(hasListener) ==> r == Pass && hasListener
      ensures top == old(top) && activeData == old(activeData) && delivered == old(delivered)
      ensures nextRef == old(nextRef)
    {
      if hasListener {
        return Fail(SetListenerAgainMessage);
      }
      hasListener := true;
      r := Pass;
    }

    /**
     * _emitStateImpl: without a listener nothing happens. Otherwise every
     * property takes the partial state's value unless that is undefined or
     * null, `activeData` starts from its defaults the first time, and the
     * merged state is handed to the listener.
     */
    method EmitStateImpl(partial: map<Key, Val>)
      requires Valid()
      modifies this
      ensures Valid()
      ensures hasListener == old(hasListener)
      ensures !hasListener ==>
                top == old(top) && activeData == old(activeData) && delivered == old(delivered)
                && nextRef == old(nextRef)
      ensures hasListener ==>
                && top == Merge(TopKeys, old(top), partial)
                && activeData == Some(Merge(ActiveDataKeys, old(activeData).GetOr(DefaultActiveData(old(nextRef))), partial))
                && delivered == old(delivered) + [(top, activeData.value)]
                && nextRef == old(nextRef) + if old(activeData).None? then DefaultObjects else 0
    {
      if !hasListener {
        return;
      }
      top := Merge(TopKeys, top, partial);
      var base: map<Key, Val>;
      if activeData.Some? {
        base := activeData.value;
      } else {
        base := DefaultActiveData(nextRef);
        nextRef := nextRef + DefaultObjects;
      }
      var merged := Merge(ActiveDataKeys, base, partial);
      activeData := Some(merged);
      delivered := delivered + [(top, merged)];
    }

    /** setParameter always throws. */
    method SetParameter(key: string, value: Val) returns (r: Outcome)
      ensures r == Fail(ParameterUnsupportedMessage)
    {
      r := Fail(ParameterUnsupportedMessage);
    }

    /** publish always throws. */
    method Publish(topic: string, msg: Val) returns (r: Outcome)
      ensures r == Fail(PublishUnsupportedMessage)
    {
      r := Fail(PublishUnsupportedMessage);
    }

    /** callService always rejects. */
    method CallService() returns (r: Outcome)
      ensures r == Fail(ServiceUnsupportedMessage)
    {
      r := Fail(ServiceUnsupportedMessage);
    }

    /** setPublishers, setGlobalVariables and setPlaybackSpeed do nothing: the speed never reaches the worker. */
    method SetPlaybackSpeed(speed: real)
      ensures top == old(top) && activeData == old(activeData) && delivered == old(delivered)
    {
    }

    method SetPublishers(publishers: seq<string>)
      ensures top == old(top) && activeData == old(activeData) && delivered == old(delivered)
    {
    }

    method SetGlobalVariables(globals: map<string, Val>)
      ensures top == old(top) && activeData == old(activeData) && delivered == old(delivered)
    {
    }
  }

  /**
   * Once the player has handed a state to its listener, `activeData` is
   * present, and every active-data property holds a defined value: the
   * defaults define each one, and a merge never clears one.
   */
  lemma ActiveDataDefined(base: map<Key, Val>, partial: map<Key, Val>, k: Key)
    requires k in base && Defined(base[k])
    requires k in ActiveDataKeys
    ensures Defined(Read(Merge(ActiveDataKeys, base, partial), k))
  {
  }

  /** The defaults define every property they set. */
  lemma DefaultActiveDataDefined(ref: nat, k: Key)
    requires k in DefaultActiveData(ref)
    ensures Defined(DefaultActiveData(ref)[k])
  {
  }

  /**
   * The player's merged state, after the diffs of any sequence of worker
   * snapshots, holds every defined value of the last snapshot, at the top
   * level and under `activeData` alike.
   */
  lemma PlayerTracksWorker(top: map<Key, Val>, data: map<Key, Val>, snaps: seq<map<Key, Val>>)
    requires snaps != []
    ensures Agrees(TopKeys, Replay(TopKeys, top, None, snaps), Some(snaps[|snaps| - 1]))
    ensures Agrees(ActiveDataKeys, Replay(ActiveDataKeys, data, None, snaps), Some(snaps[|snaps| - 1]))
  {
    ReplayAgrees(TopKeys, top, None, snaps);
    ReplayAgrees(ActiveDataKeys, data, None, snaps);
  }
}

/**
 * The flat playback snapshot the playback worker sends across the worker
 * boundary (`PlaybackState`), the diff the worker takes of two snapshots and
 * the `??` merge the player applies to what it receives.
 *
 * An object is a map from its property keys to values; a key it does not
 * carry reads as `undefined`.
 */
module PlaybackState {
  import opened Wrappers
  import opened JsValues

  /** The properties of `PlaybackState`, in declaration order. */
  datatype Key =
    | Name | Presence | Progress | Capabilities | Profile | PlayerId | Problems | UrlState
    | Messages | TotalBytesReceived | CurrentTime | StartTime | EndTime | IsPlaying | Speed
    | LastSeekTime | Topics | TopicStats | Datatypes | PublishedTopics | SubscribedTopics
    | Services | Parameters

  /** The properties the player keeps under `activeData` rather than at the top of its state. */
  predicate IsActiveDataKey(k: Key) {
    !(k.Name? || k.Presence? || k.Progress? || k.Capabilities? || k.Profile? || k.PlayerId?
      || k.Problems? || k.UrlState?)
  }

  const TopKeys: set<Key> := {Name, Presence, Progress, Capabilities, Profile, PlayerId, Problems, UrlState}

  const ActiveDataKeys: set<Key> := {Messages, TotalBytesReceived, CurrentTime, StartTime, EndTime, IsPlaying,
    Speed, LastSeekTime, Topics, TopicStats, Datatypes, PublishedTopics, SubscribedTopics, Services, Parameters}

  /** Every key is either a top-level key or an active-data key. */
  lemma KeysPartition(k: Key)
    ensures k in TopKeys <==> !IsActiveDataKey(k)
    ensures k in ActiveDataKeys <==> IsActiveDataKey(k)
  {
  }

  /** The presence of the player: `PlayerPresence`. */
  datatype PlayerPresence = NotPresent | Initializing | Present | Buffering | Error

  /** The value a presence is sent as: one distinct constant per member. */
  function PresenceVal(p: PlayerPresence): (v: Val)
    ensures v.Str?
  {
    Str(match p
      case NotPresent => "NOT_PRESENT"
      case Initializing => "INITIALIZING"
      case Present => "PRESENT"
      case Buffering => "BUFFERING"
      case Error => "ERROR")
  }

  /** Distinct presences are sent as distinct values. */
  lemma PresenceValInjective(p: PlayerPresence, q: PlayerPresence)
    ensures PresenceVal(p) == PresenceVal(q) ==> p == q
  {
  }

  /** Property `k` of object `o`. */
  function Read(o: map<Key, Val>, k: Key): Val {
    if k in o then o[k] else Undefined
  }

  /** `prev?.[k]`: `undefined` when there is no previous object. */
  function ReadPrev(prev: Option<map<Key, Val>>, k: Key): Val {
    match prev
    case None => Undefined
    case Some(o) => Read(o, k)
  }

  /** The object holding exactly the properties of `cur` whose value is not `===` to the one in `prev`. */
  function Changed(prev: Option<map<Key, Val>>, cur: map<Key, Val>): map<Key, Val> {
    map k | k in cur && ReadPrev(prev, k) != cur[k] :: cur[k]
  }

  /** Sets every key of `keys` in `target` to `partial[k] ?? target[k]`. */
  function Merge(keys: set<Key>, target: map<Key, Val>, partial: map<Key, Val>): map<Key, Val> {
    map k | k in keys :: Coalesce(Read(partial, k), Read(target, k))
  }

  /** `m` holds, for every key of `keys`, every value `s` defines there. */
  predicate Agrees(keys: set<Key>, m: map<Key, Val>, s: Option<map<Key, Val>>) {
    forall k :: k in keys && Defined(ReadPrev(s, k)) ==> Read(m, k) == ReadPrev(s, k)
  }

  /** A diff sends exactly the changed properties, and carries their new values. */
  lemma ChangedSpec(prev: Option<map<Key, Val>>, cur: map<Key, Val>, k: Key)
    ensures k in Changed(prev, cur) <==> k in cur && ReadPrev(prev, k) != cur[k]
    ensures k in Changed(prev, cur) ==> Changed(prev, cur)[k] == cur[k]
    ensures k !in Changed(prev, cur) ==> Read(cur, k) == ReadPrev(prev, k) || k !in cur
  {
  }

  /** A property the partial state leaves undefined or null keeps its previous value. */
  lemma MergeKeepsAbsent(keys: set<Key>, target: map<Key, Val>, partial: map<Key, Val>, k: Key)
    requires k in keys && !Defined(Read(partial, k))
    ensures Read(Merge(keys, target, partial), k) == Read(target, k)
  {
  }

  /**
   * Diff then merge: when the merged state holds every defined value of the
   * previous snapshot, merging the diff to the next snapshot makes it hold
   * every defined value of that one.
   */
  lemma DiffMergeRoundTrip(keys: set<Key>, target: map<Key, Val>, prev: Option<map<Key, Val>>, cur: map<Key, Val>)
    requires Agrees(keys, target, prev)
    ensures Agrees(keys, Merge(keys, target, Changed(prev, cur)), Some(cur))
  {
    var m := Merge(keys, target, Changed(prev, cur));
    forall k | k in keys && Defined(Read(cur, k))
      ensures Read(m, k) == Read(cur, k)
    {
      ChangedSpec(prev, cur, k);
      if k !in Changed(prev, cur) {
        assert Read(cur, k) == ReadPrev(prev, k);
      }
    }
  }

  /** The merged state after the diffs of the snapshots `snaps`, taken in turn from `prev` on. */
  function Replay(keys: set<Key>, target: map<Key, Val>, prev: Option<map<Key, Val>>, snaps: seq<map<Key, Val>>): map<Key, Val>
    decreases |snaps|
  {
    if snaps == [] then target
    else Replay(keys, Merge(keys, target, Changed(prev, snaps[0])), Some(snaps[0]), snaps[1..])
  }

  /**
   * Over any run of emissions starting from no previous snapshot, the merged
   * state holds every defined value of the last snapshot sent.
   */
  lemma {:induction false} ReplayAgrees(keys: set<Key>, target: map<Key, Val>, prev: Option<map<Key, Val>>, snaps: seq<map<Key, Val>>)
    requires Agrees(keys, target, prev)
    ensures Agrees(keys, Replay(keys, target, prev, snaps), if snaps == [] then prev else Some(snaps[|snaps| - 1]))
    decreases |snaps|
  {
    if snaps != [] {
      DiffMergeRoundTrip(keys, target, prev, snaps[0]);
      ReplayAgrees(keys, Merge(keys, target, Changed(prev, snaps[0])), Some(snaps[0]), snaps[1..]);
      if |snaps| > 1 {
        assert snaps[1..][|snaps[1..]| - 1] == snaps[|snaps| - 1];
      }
    }
  }

  /**
   * A property cannot be cleared: once the merged state holds a defined
   * value, no later diff makes it undefined.
   */
  lemma {:induction false} ReplayNeverClears(keys: set<Key>, target: map<Key, Val>, prev: Option<map<Key, Val>>, snaps: seq<map<Key, Val>>, k: Key)
    requires k in keys && Defined(Read(target, k))
    ensures Defined(Read(Replay(keys, target, prev, snaps), k))
    decreases |snaps|
  {
    if snaps != [] {
      var next := Merge(keys, target, Changed(prev, snaps[0]));
      assert Defined(Read(next, k));
      ReplayNeverClears(keys, next, Some(snaps[0]), snaps[1..], k);
    }
  }
}

/** `MetadataManager` of server/bot/metadata-manager.ts: the metadata objects attached to
    sessions, creators and activities, built by spreading objects together and stamping
    them with the current time, which every builder here takes as `now`. */
module MetadataManager {
  import opened Wrappers
  import opened Schema
  import opened Json

  /** `{ ...base, ...updates, [key]: now }` */
  function Stamped(base: Object, updates: Object, key: string, now: int): (r: Object)
    ensures r.Keys == base.Keys + updates.Keys + {key}
    ensures r[key] == JDate(now)
    ensures forall k | k in updates && k != key :: r[k] == updates[k]
    ensures forall k | k in base && k !in updates && k != key :: r[k] == base[k]
  {
    base + updates + map[key := JDate(now)]
  }

  /** `createSessionMetadata(data)` */
  function CreateSessionMetadata(data: Object, now: int): Object {
    Stamped(map[], data, "timestamp", now)
  }

  /** `createCreatorMetadata(data)`: `inviteTime` defaults to now, the data wins. */
  function CreateCreatorMetadata(data: Object, now: int): Object {
    map["inviteTime" := JDate(now)] + data
  }

  /** The fields spread by `...data.timing`: an object's own fields, nothing otherwise. */
  function TimingOf(data: Object): Object {
    if "timing" in data && data["timing"].JObj? then data["timing"].fields else map[]
  }

  /** `createActivityMetadata(data)`: `timing.inviteTime` is always now. */
  function CreateActivityMetadata(data: Object, now: int): Object {
    data + map["timing" := JObj(Stamped(TimingOf(data), map[], "inviteTime", now))]
  }

  /** `updateSessionMetadata(existing, updates)`; a missing `existing` counts as `{}`. */
  function UpdateSessionMetadata(existing: Option<Object>, updates: Object, now: int): Object {
    Stamped(existing.GetOr(map[]), updates, "timestamp", now)
  }

  /** `updateCreatorMetadata(existing, updates)` */
  function UpdateCreatorMetadata(existing: Option<Object>, updates: Object, now: int): Object {
    Stamped(existing.GetOr(map[]), updates, "lastInteraction", now)
  }

  /** `metadata?.interactionHistory || []` for an array-valued or absent history. */
  function History(metadata: Option<Object>): seq<Value> {
    if metadata.Some? && "interactionHistory" in metadata.value && metadata.value["interactionHistory"].JArr?
    then metadata.value["interactionHistory"].items
    else []
  }

  function InteractionEntry(kind: string, sessionId: int, now: int): Value {
    JObj(map["type" := JStr(kind), "timestamp" := JDate(now), "sessionId" := JNum(sessionId)])
  }

  /** `addInteractionToCreatorHistory(metadata, type, sessionId)` */
  function AddInteraction(metadata: Option<Object>, kind: string, sessionId: int, now: int): Object {
    metadata.GetOr(map[]) + map[
      "lastInteraction" := JDate(now),
      "interactionHistory" := JArr(History(metadata) + [InteractionEntry(kind, sessionId, now)])]
  }

  /** `calculateSessionDuration(startTime)` */
  function SessionDuration(startTime: int, now: int): int {
    now - startTime
  }

  /** `createErrorMetadata(error)`: an `Error` gives its message, a string itself. */
  function CreateErrorMetadata(error: Thrown, now: int): Object {
    var text := match error
      case ErrorValue(_, m) => m
      case OtherValue(t) => t;
    map["error" := JStr(text), "timestamp" := JDate(now)]
  }

  const USER_AGENT: string := "Mozilla/5.0 (Windows NT 10.0; Win64; x64) AppleWebKit/537.36 (KHTML, like Gecko) Chrome/120.0.0.0 Safari/537.36"

  /** `createInitialSessionMetadata()` */
  function CreateInitialSessionMetadata(now: int): Object {
    map["userAgent" := JStr(USER_AGENT), "viewport" := JStr("1920x1080"),
        "sessionType" := JStr("enhanced"), "timestamp" := JDate(now)]
  }

  /** `createSessionPauseMetadata(startTime)` */
  function CreateSessionPauseMetadata(startTime: int, now: int): Object {
    map["pauseTime" := JDate(now), "timeSinceStart" := JNum(SessionDuration(startTime, now)),
        "timestamp" := JDate(now)]
  }

  /** `createSessionResumeMetadata()` */
  function CreateSessionResumeMetadata(now: int): Object {
    map["resumeTime" := JDate(now), "timestamp" := JDate(now)]
  }

  function StatsObject(s: Stats): Value {
    JObj(map["invitesSent" := JNum(s.invitesSent), "successfulInvites" := JNum(s.successfulInvites),
             "errorCount" := JNum(s.errorCount)])
  }

  /** `createSessionStopMetadata(startTime, reason, stats)`; an undefined reason leaves
      no `stopReason` key. */
  function CreateSessionStopMetadata(startTime: int, reason: Option<string>, stats: Stats, now: int): Object {
    (if reason.Some? then map["stopReason" := JStr(reason.value)] else map[])
    + map["sessionDuration" := JNum(SessionDuration(startTime, now)), "finalStats" := StatsObject(stats),
          "timestamp" := JDate(now)]
  }

  // ---------------------------------------------------------------- lemmas

  /** Updating session metadata: supplied keys override, keys only in `existing` stay,
      no `existing` is `{}`, and `timestamp` is now. */
  lemma UpdateSessionMetadataMerges(existing: Option<Object>, updates: Object, now: int)
    ensures var r := UpdateSessionMetadata(existing, updates, now);
      && r.Keys == existing.GetOr(map[]).Keys + updates.Keys + {"timestamp"}
      && r["timestamp"] == JDate(now)
      && (forall k | k in updates && k != "timestamp" :: r[k] == updates[k])
      && (existing.Some? ==> forall k | k in existing.value && k !in updates && k != "timestamp" :: r[k] == existing.value[k])
      && (existing.None? ==> r == CreateSessionMetadata(updates, now))
  {
  }

  /** Updating creator metadata: the same, stamping `lastInteraction`. */
  lemma UpdateCreatorMetadataMerges(existing: Option<Object>, updates: Object, now: int)
    ensures var r := UpdateCreatorMetadata(existing, updates, now);
      && r.Keys == existing.GetOr(map[]).Keys + updates.Keys + {"lastInteraction"}
      && r["lastInteraction"] == JDate(now)
      && (forall k | k in updates && k != "lastInteraction" :: r[k] == updates[k])
      && (existing.Some? ==> forall k | k in existing.value && k !in updates && k != "lastInteraction" :: r[k] == existing.value[k])
  {
  }

  /** Applying the same update twice at the same instant is the same as once. */
  lemma UpdateSessionMetadataIdempotent(existing: Option<Object>, updates: Object, now: int)
    ensures UpdateSessionMetadata(Some(UpdateSessionMetadata(existing, updates, now)), updates, now)
         == UpdateSessionMetadata(existing, updates, now)
  {
  }

  /** The history after an interaction is the old one with exactly one entry appended;
      `lastInteraction` is now and every other key is kept. */
  lemma AddInteractionAppends(metadata: Option<Object>, kind: string, sessionId: int, now: int)
    ensures var r := AddInteraction(metadata, kind, sessionId, now);
      && History(Some(r)) == History(metadata) + [InteractionEntry(kind, sessionId, now)]
      && r["lastInteraction"] == JDate(now)
      && r.Keys == metadata.GetOr(map[]).Keys + {"lastInteraction", "interactionHistory"}
      && (metadata.Some? ==> forall k | k in metadata.value && k != "lastInteraction" && k != "interactionHistory" ::
            r[k] == metadata.value[k])
  {
  }

  /** Recording a sequence of interactions, one call each. */
  function AddInteractions(metadata: Option<Object>, kinds: seq<string>, sessionId: int, now: int): Option<Object> {
    if kinds == [] then metadata
    else Some(AddInteraction(AddInteractions(metadata, kinds[..|kinds| - 1], sessionId, now), kinds[|kinds| - 1], sessionId, now))
  }

  /** The entries that interactions of the given kinds append, one per kind, in order. */
  function InteractionEntries(kinds: seq<string>, sessionId: int, now: int): (r: seq<Value>)
    ensures |r| == |kinds| && forall i :: 0 <= i < |kinds| ==> r[i] == InteractionEntry(kinds[i], sessionId, now)
  {
    seq(|kinds|, i requires 0 <= i < |kinds| => InteractionEntry(kinds[i], sessionId, now))
  }

  lemma InteractionEntriesSnoc(init: seq<string>, kind: string, sessionId: int, now: int)
    ensures InteractionEntries(init + [kind], sessionId, now) == InteractionEntries(init, sessionId, now) + [InteractionEntry(kind, sessionId, now)]
  {
  }

  lemma AddInteractionsSnoc(metadata: Option<Object>, init: seq<string>, kind: string, sessionId: int, now: int)
    ensures History(AddInteractions(metadata, init + [kind], sessionId, now))
      == History(AddInteractions(metadata, init, sessionId, now)) + [InteractionEntry(kind, sessionId, now)]
  {
    assert (init + [kind])[..|init|] == init;
    AddInteractionAppends(AddInteractions(metadata, init, sessionId, now), kind, sessionId, now);
  }

  lemma {:induction false} AddInteractionsAppendEntries(metadata: Option<Object>, kinds: seq<string>, sessionId: int, now: int)
    ensures History(AddInteractions(metadata, kinds, sessionId, now)) == History(metadata) + InteractionEntries(kinds, sessionId, now)
  {
    if kinds != [] {
      var init, kind := kinds[..|kinds| - 1], kinds[|kinds| - 1];
      assert kinds == init + [kind];
      AddInteractionsAppendEntries(metadata, init, sessionId, now);
      AddInteractionsSnoc(metadata, init, kind, sessionId, now);
      InteractionEntriesSnoc(init, kind, sessionId, now);
      var h0, es, e := History(metadata), InteractionEntries(init, sessionId, now), InteractionEntry(kind, sessionId, now);
      assert h0 + es + [e] == h0 + (es + [e]);
    }
  }

  /** Repeated interactions keep the old history as a prefix and append one entry per
      kind, in order. */
  lemma AddInteractionsExtendHistory(metadata: Option<Object>, kinds: seq<string>, sessionId: int, now: int)
    ensures var h := History(AddInteractions(metadata, kinds, sessionId, now));
      && |h| == |History(metadata)| + |kinds|
      && h[..|History(metadata)|] == History(metadata)
      && forall i :: 0 <= i < |kinds| ==> h[|History(metadata)| + i] == InteractionEntry(kinds[i], sessionId, now)
  {
    AddInteractionsAppendEntries(metadata, kinds, sessionId, now);
    var h0, es := History(metadata), InteractionEntries(kinds, sessionId, now);
    assert (h0 + es)[..|h0|] == h0;
  }

  /** A caller-supplied `inviteTime` wins over the default; every supplied key is kept. */
  lemma CreatorMetadataInviteTime(data: Object, now: int)
    ensures var r := CreateCreatorMetadata(data, now);
      && "inviteTime" in r
      && ("inviteTime" in data ==> r["inviteTime"] == data["inviteTime"])
      && ("inviteTime" !in data ==> r["inviteTime"] == JDate(now))
      && forall k | k in data :: r[k] == data[k]
  {
  }

  /** `timing.inviteTime` is always now, the other timing fields and the other keys of
      the data are kept. */
  lemma ActivityMetadataTiming(data: Object, now: int)
    ensures var r := CreateActivityMetadata(data, now);
      && r["timing"].JObj?
      && r["timing"].fields["inviteTime"] == JDate(now)
      && (forall k | k in TimingOf(data) && k != "inviteTime" :: r["timing"].fields[k] == TimingOf(data)[k])
      && r["timing"].fields.Keys == TimingOf(data).Keys + {"inviteTime"}
      && forall k | k in data && k != "timing" :: r[k] == data[k]
  {
  }

  /** The stop envelope: the stats as given, the duration since the start, and the
      reason exactly when one was given. */
  lemma StopMetadataContents(startTime: int, reason: Option<string>, stats: Stats, now: int)
    ensures var r := CreateSessionStopMetadata(startTime, reason, stats, now);
      && r["finalStats"] == StatsObject(stats)
      && r["sessionDuration"] == JNum(now - startTime)
      && r["timestamp"] == JDate(now)
      && ("stopReason" in r <==> reason.Some?)
      && (reason.Some? ==> r["stopReason"] == JStr(reason.value))
  {
  }

  /** The pause envelope records the time since the start. */
  lemma PauseMetadataContents(startTime: int, now: int)
    ensures var r := CreateSessionPauseMetadata(startTime, now);
      r["timeSinceStart"] == JNum(now - startTime) && r["pauseTime"] == JDate(now) && r["timestamp"] == JDate(now)
  {
  }

  /** Error metadata carries the message of an `Error` and a thrown string itself. */
  lemma ErrorMetadataText(error: Thrown, now: int)
    ensures var r := CreateErrorMetadata(error, now);
      && (error.ErrorValue? ==> r["error"] == JStr(error.message))
      && (error.OtherValue? ==> r["error"] == JStr(error.text))
      && r["timestamp"] == JDate(now)
  {
  }
}

/**
 * Video progress tracking over the `users` collection: each user document
 * holds an `episodeProgress` map from episode id to the viewer's progress,
 * beside other fields this service never touches.
 *
 * The collection is an in-memory map held by a `ProgressStore` object; a write
 * or read that fails is an input flag, and the clock reading `new Date()` is
 * the parameter `now` (milliseconds).
 */
module FirestoreService {
  import opened Wrappers
  import opened Json

  /** `EpisodeProgress` as stored; `completedAt` is an optional field. */
  datatype Progress = Progress(lastPosition: nat, isCompleted: bool, lastWatched: int, completedAt: Option<int>)

  /** A user document: its progress map (empty when the field is missing) and its other fields. */
  datatype UserDocument = UserDocument(episodeProgress: map<string, Progress>, otherFields: map<string, JsonValue>)

  /**
   * The entry `saveVideoProgress` writes: an omitted `isCompleted` is stored as
   * false, and `completedAt` is present exactly when the caller passed
   * `isCompleted: true`.
   */
  function WrittenEntry(lastPosition: nat, isCompleted: Option<bool>, now: int): (p: Progress)
    ensures p.lastPosition == lastPosition && p.lastWatched == now
    ensures p.isCompleted <==> isCompleted == Some(true)
    ensures p.completedAt.Some? <==> p.isCompleted
    ensures p.completedAt.Some? ==> p.completedAt.value == now
  {
    var completed := isCompleted == Some(true);
    Progress(lastPosition, completed, now, if completed then Some(now) else None)
  }

  /**
   * A merging write of entry `w` over the stored entry: every field `w` carries
   * replaces the stored one, and a stored `completedAt` survives a write that
   * carries none.
   */
  function MergeEntry(stored: Option<Progress>, w: Progress): (p: Progress)
    ensures p.lastPosition == w.lastPosition && p.isCompleted == w.isCompleted && p.lastWatched == w.lastWatched
    ensures w.completedAt.Some? ==> p.completedAt == w.completedAt
    ensures w.completedAt.None? ==> p.completedAt == (if stored.Some? then stored.value.completedAt else None)
  {
    Progress(w.lastPosition, w.isCompleted, w.lastWatched,
             if w.completedAt.Some? then w.completedAt
             else if stored.Some? then stored.value.completedAt
             else None)
  }

  /** The stored entry of one episode of one user, if any. */
  function StoredEntry(docs: map<string, UserDocument>, userId: string, episodeId: string): Option<Progress> {
    if userId in docs && episodeId in docs[userId].episodeProgress then Some(docs[userId].episodeProgress[episodeId])
    else None
  }

  /**
   * The collection after `setDoc(users/userId, {episodeProgress: {[episodeId]: w}}, {merge: true})`:
   * the document is created if missing, and only the one entry is rewritten.
   */
  function SaveEffect(docs: map<string, UserDocument>, userId: string, episodeId: string, w: Progress): (docs': map<string, UserDocument>)
    ensures docs'.Keys == docs.Keys + {userId}
    ensures StoredEntry(docs', userId, episodeId) == Some(MergeEntry(StoredEntry(docs, userId, episodeId), w))
  {
    var doc := if userId in docs then docs[userId] else UserDocument(map[], map[]);
    var merged := MergeEntry(StoredEntry(docs, userId, episodeId), w);
    docs[userId := doc.(episodeProgress := doc.episodeProgress[episodeId := merged])]
  }

  /** Round trip: reading back a saved episode gives the saved position and completion flag. */
  lemma SaveThenRead(docs: map<string, UserDocument>, userId: string, episodeId: string,
                     lastPosition: nat, isCompleted: Option<bool>, now: int)
    ensures var e := StoredEntry(SaveEffect(docs, userId, episodeId, WrittenEntry(lastPosition, isCompleted, now)), userId, episodeId);
            e.Some? && e.value.lastPosition == lastPosition && e.value.isCompleted == (isCompleted == Some(true))
            && e.value.lastWatched == now
  {
  }

  /** A save touches nothing but its own entry: every other entry, and every document's other fields, stay as they were. */
  lemma SaveKeepsEverythingElse(docs: map<string, UserDocument>, userId: string, episodeId: string, w: Progress,
                                otherUser: string, otherEpisode: string)
    requires otherUser != userId || otherEpisode != episodeId
    ensures StoredEntry(SaveEffect(docs, userId, episodeId, w), otherUser, otherEpisode) == StoredEntry(docs, otherUser, otherEpisode)
    ensures forall u :: u in docs ==> SaveEffect(docs, userId, episodeId, w)[u].otherFields == docs[u].otherFields
  {
  }

  /**
   * Completion is not sticky: a save that omits `isCompleted` after a
   * completing save stores `isCompleted` false, while the merge keeps the
   * earlier `completedAt`.
   */
  lemma OmittedFlagClearsCompletion(docs: map<string, UserDocument>, userId: string, episodeId: string,
                                    p1: nat, t1: int, p2: nat, t2: int)
    ensures var d1 := SaveEffect(docs, userId, episodeId, WrittenEntry(p1, Some(true), t1));
            var d2 := SaveEffect(d1, userId, episodeId, WrittenEntry(p2, None, t2));
            StoredEntry(d2, userId, episodeId) == Some(Progress(p2, false, t2, Some(t1)))
  {
    var d1 := SaveEffect(docs, userId, episodeId, WrittenEntry(p1, Some(true), t1));
    assert StoredEntry(d1, userId, episodeId).value.completedAt == Some(t1);
  }

  /** A user's whole progress map; empty when the document does not exist. */
  function AllProgress(docs: map<string, UserDocument>, userId: string): (m: map<string, Progress>)
    ensures forall e :: e in m <==> StoredEntry(docs, userId, e).Some?
    ensures forall e :: e in m ==> StoredEntry(docs, userId, e) == Some(m[e])
  {
    if userId in docs then docs[userId].episodeProgress else map[]
  }

  class ProgressStore {
    /** The `users` collection, by document id. */
    var docs: map<string, UserDocument>

    constructor (initial: map<string, UserDocument>)
      ensures docs == initial
    {
      docs := initial;
    }

    /**
     * `saveVideoProgress`: merges one entry into the user's document; a failed
     * write is re-thrown and changes nothing.
     */
    method SaveVideoProgress(userId: string, episodeId: string, lastPosition: nat, isCompleted: Option<bool>,
                             now: int, writeFails: bool) returns (o: Outcome<()>)
      modifies this
      ensures writeFails ==> o.Threw? && docs == old(docs)
      ensures !writeFails ==> o.Returned?
      ensures !writeFails ==> docs == SaveEffect(old(docs), userId, episodeId, WrittenEntry(lastPosition, isCompleted, now))
    {
      var progressData := WrittenEntry(lastPosition, isCompleted, now);
      if writeFails {
        return Threw("Error saving video progress");
      }
      docs := SaveEffect(docs, userId, episodeId, progressData);
      return Returned(());
    }

    /** `getVideoProgress`: the stored entry, or null for a missing document, a missing entry or a failed read. */
    method GetVideoProgress(userId: string, episodeId: string, readFails: bool) returns (r: Option<Progress>)
      ensures readFails ==> r.None?
      ensures !readFails ==> (r.Some? <==> userId in docs && episodeId in docs[userId].episodeProgress)
      ensures r.Some? ==> r.value == docs[userId].episodeProgress[episodeId]
    {
      if readFails || userId !in docs {
        return None;
      }
      var episodeProgress := docs[userId].episodeProgress;
      if episodeId in episodeProgress {
        return Some(episodeProgress[episodeId]);
      }
      return None;
    }

    /** `getAllVideoProgress`: the user's progress map, empty for a missing document or a failed read. */
    method GetAllVideoProgress(userId: string, readFails: bool) returns (m: map<string, Progress>)
      ensures readFails || userId !in docs ==> m == map[]
      ensures !readFails && userId in docs ==> m == docs[userId].episodeProgress
    {
      if readFails || userId !in docs {
        return map[];
      }
      return docs[userId].episodeProgress;
    }

    /** `markEpisodeComplete`: exactly a save with `isCompleted: true`; its errors are re-thrown. */
    method MarkEpisodeComplete(userId: string, episodeId: string, finalPosition: nat, now: int, writeFails: bool)
      returns (o: Outcome<()>)
      modifies this
      ensures writeFails ==> o.Threw? && docs == old(docs)
      ensures !writeFails ==> o.Returned?
      ensures !writeFails ==> docs == SaveEffect(old(docs), userId, episodeId, WrittenEntry(finalPosition, Some(true), now))
      ensures !writeFails ==> StoredEntry(docs, userId, episodeId) == Some(Progress(finalPosition, true, now, Some(now)))
    {
      o := SaveVideoProgress(userId, episodeId, finalPosition, Some(true), now, writeFails);
    }
  }
}

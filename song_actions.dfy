/** The song server actions (frontend/src/actions/song.ts) over abstract
    tables: the song rows, the (user, song) likes and the storage bucket. */
module SongActions {
  import opened Base

  /** A song row, as far as the actions read or write it. */
  datatype SongRow = SongRow(
    userId: string,
    title: Option<string>,
    published: bool,
    s3Key: Option<string>,
    thumbnailS3Key: Option<string>)

  /** The outcome of an action: it completed, it redirected to sign-in for
      want of a session, no row with that id belongs to the caller (the
      lookup finds nothing, or the scoped update throws), or the row
      deletion failed. */
  datatype ActionResult = Done | Redirect | NotFound | DbFailed

  /** One step of `deleteSong`, in the order it is taken. */
  datatype DeleteStep = RowDeleted(songId: string) | ObjectDeleteRequested(key: string)

  /** `songId` names a row owned by `user` (the `{ id, userId }` filter). */
  predicate Owns(songs: map<string, SongRow>, user: string, songId: string) {
    songId in songs && songs[songId].userId == user
  }

  /** The storage keys `deleteSong` asks storage to delete, audio first:
      only the truthy keys of the row. */
  function StorageKeys(row: SongRow): (keys: seq<string>)
    ensures forall k :: k in keys ==> k != ""
    ensures |keys| <= 2
    ensures |keys| == (if Truthy(row.s3Key) then 1 else 0) + (if Truthy(row.thumbnailS3Key) then 1 else 0)
    ensures Truthy(row.s3Key) ==> keys[0] == row.s3Key.value
    ensures Truthy(row.thumbnailS3Key) ==> keys[|keys| - 1] == row.thumbnailS3Key.value
  {
    (if Truthy(row.s3Key) then [row.s3Key.value] else []) +
    (if Truthy(row.thumbnailS3Key) then [row.thumbnailS3Key.value] else [])
  }

  /** The steps of a successful `deleteSong`: the row first, then one
      storage request per key. */
  function DeleteSteps(songId: string, row: SongRow): seq<DeleteStep> {
    [RowDeleted(songId)] + seq(|StorageKeys(row)|, i requires 0 <= i < |StorageKeys(row)| =>
      ObjectDeleteRequested(StorageKeys(row)[i]))
  }

  /** The row is removed before storage is touched, and storage is asked to
      delete exactly the row's truthy keys. */
  lemma DeleteStepsOrder(songId: string, row: SongRow)
    ensures DeleteSteps(songId, row)[0] == RowDeleted(songId)
    ensures forall i :: 1 <= i < |DeleteSteps(songId, row)| ==>
      DeleteSteps(songId, row)[i].ObjectDeleteRequested? &&
      DeleteSteps(songId, row)[i].key in StorageKeys(row)
    ensures forall k :: k in StorageKeys(row) ==> ObjectDeleteRequested(k) in DeleteSteps(songId, row)
    ensures Truthy(row.s3Key) ==> ObjectDeleteRequested(row.s3Key.value) in DeleteSteps(songId, row)
    ensures !Truthy(row.s3Key) && !Truthy(row.thumbnailS3Key) ==> DeleteSteps(songId, row) == [RowDeleted(songId)]
  {
    var keys := StorageKeys(row);
    var steps := DeleteSteps(songId, row);
    forall k | k in keys
      ensures ObjectDeleteRequested(k) in steps
    {
      var i :| 0 <= i < |keys| && keys[i] == k;
      assert steps[i + 1] == ObjectDeleteRequested(k);
    }
  }

  /** The objects actually removed: a key whose deletion fails stays. */
  function RemovedObjects(row: SongRow, audioOk: bool, thumbOk: bool): (gone: set<string>)
    ensures forall k :: k in gone ==> k in StorageKeys(row)
    ensures Truthy(row.s3Key) && audioOk ==> row.s3Key.value in gone
    ensures Truthy(row.thumbnailS3Key) && thumbOk ==> row.thumbnailS3Key.value in gone
  {
    (if Truthy(row.s3Key) && audioOk then {row.s3Key.value} else {}) +
    (if Truthy(row.thumbnailS3Key) && thumbOk then {row.thumbnailS3Key.value} else {})
  }

  /** The songs table after `setPublishedStatus` on an owned row. */
  function WithPublished(songs: map<string, SongRow>, songId: string, published: bool): (r: map<string, SongRow>)
    requires songId in songs
    ensures r.Keys == songs.Keys
    ensures r[songId].published == published
    ensures r[songId].(published := songs[songId].published) == songs[songId]
    ensures forall id :: id in songs && id != songId ==> r[id] == songs[id]
  {
    songs[songId := songs[songId].(published := published)]
  }

  /** The publish button sends the negation of the row's flag: pressing it
      twice gives the table back. */
  lemma PublishToggleTwiceRestores(songs: map<string, SongRow>, songId: string)
    requires songId in songs
    ensures var once := WithPublished(songs, songId, !songs[songId].published);
      WithPublished(once, songId, !once[songId].published) == songs
  {
    var once := WithPublished(songs, songId, !songs[songId].published);
    var twice := WithPublished(once, songId, !once[songId].published);
    assert twice[songId] == songs[songId];
  }

  /** The songs table after `renameSong` on an owned row. */
  function WithTitle(songs: map<string, SongRow>, songId: string, title: string): (r: map<string, SongRow>)
    requires songId in songs
    ensures r.Keys == songs.Keys
    ensures r[songId].title == Some(title)
    ensures r[songId].(title := songs[songId].title) == songs[songId]
    ensures forall id :: id in songs && id != songId ==> r[id] == songs[id]
  {
    songs[songId := songs[songId].(title := Some(title))]
  }

  /** Renaming twice is renaming to the last title. */
  lemma RenameLastWins(songs: map<string, SongRow>, songId: string, t1: string, t2: string)
    requires songId in songs
    ensures WithTitle(WithTitle(songs, songId, t1), songId, t2) == WithTitle(songs, songId, t2)
  {
    assert WithTitle(WithTitle(songs, songId, t1), songId, t2)[songId] == WithTitle(songs, songId, t2)[songId];
  }

  /** The likes after `toggleLikeSong`: the pair is removed if present and
      added otherwise. */
  function Toggled(likes: set<(string, string)>, user: string, songId: string): set<(string, string)> {
    if (user, songId) in likes then likes - {(user, songId)} else likes + {(user, songId)}
  }

  /** Toggling flips exactly the caller's like of that song. */
  lemma ToggledFlipsOnlyThePair(likes: set<(string, string)>, user: string, songId: string)
    ensures ((user, songId) in Toggled(likes, user, songId)) <==> (user, songId) !in likes
    ensures forall p :: p != (user, songId) ==> (p in Toggled(likes, user, songId) <==> p in likes)
  {
  }

  /** Toggling twice restores the likes. */
  lemma ToggleTwiceRestores(likes: set<(string, string)>, user: string, songId: string)
    ensures Toggled(Toggled(likes, user, songId), user, songId) == likes
  {
  }

  /** The server-side tables. `steps` records the deletions in order. */
  class SongDb {
    var songs: map<string, SongRow>
    var likes: set<(string, string)>
    var objects: set<string>
    ghost var steps: seq<DeleteStep>

    constructor (songs: map<string, SongRow>, likes: set<(string, string)>, objects: set<string>)
      ensures this.songs == songs && this.likes == likes && this.objects == objects && steps == []
    {
      this.songs := songs;
      this.likes := likes;
      this.objects := objects;
      steps := [];
    }

    /** `deleteSong`. `session` is the caller's user id, if signed in;
        `dbDeleteOk`, `audioOk` and `thumbOk` are the outcomes of the row
        deletion and of the two storage requests. */
    method DeleteSong(session: Option<string>, songId: string, dbDeleteOk: bool, audioOk: bool, thumbOk: bool)
      returns (r: ActionResult)
      modifies this`songs, this`objects, this`steps
      ensures likes == old(likes)
      ensures r != Done ==> songs == old(songs) && objects == old(objects) && steps == old(steps)
      ensures session.None? ==> r == Redirect
      ensures session.Some? && !Owns(old(songs), session.value, songId) ==> r == NotFound
      ensures session.Some? && Owns(old(songs), session.value, songId) ==>
        r == (if dbDeleteOk then Done else DbFailed)
      ensures r == Done ==>
        songs == old(songs) - {songId} &&
        steps == old(steps) + DeleteSteps(songId, old(songs)[songId]) &&
        objects == old(objects) - RemovedObjects(old(songs)[songId], audioOk, thumbOk)
    {
      if session.None? {
        return Redirect;
      }
      if !Owns(songs, session.value, songId) {
        return NotFound;
      }
      var row := songs[songId];
      if !dbDeleteOk {
        return DbFailed;
      }
      songs := songs - {songId};
      steps := steps + [RowDeleted(songId)];
      if Truthy(row.s3Key) {
        steps := steps + [ObjectDeleteRequested(row.s3Key.value)];
        if audioOk {
          objects := objects - {row.s3Key.value};
        }
      }
      if Truthy(row.thumbnailS3Key) {
        steps := steps + [ObjectDeleteRequested(row.thumbnailS3Key.value)];
        if thumbOk {
          objects := objects - {row.thumbnailS3Key.value};
        }
      }
      r := Done;
    }

    /** `setPublishedStatus`: sets the flag of the caller's row. */
    method SetPublishedStatus(session: Option<string>, songId: string, published: bool)
      returns (r: ActionResult)
      modifies this`songs
      ensures session.None? ==> r == Redirect && songs == old(songs)
      ensures session.Some? && !Owns(old(songs), session.value, songId) ==>
        r == NotFound && songs == old(songs)
      ensures session.Some? && Owns(old(songs), session.value, songId) ==>
        r == Done && songs == WithPublished(old(songs), songId, published)
    {
      if session.None? {
        return Redirect;
      }
      if !Owns(songs, session.value, songId) {
        return NotFound;
      }
      songs := WithPublished(songs, songId, published);
      r := Done;
    }

    /** `renameSong`: sets the title of the caller's row. */
    method RenameSong(session: Option<string>, songId: string, newTitle: string)
      returns (r: ActionResult)
      modifies this`songs
      ensures session.None? ==> r == Redirect && songs == old(songs)
      ensures session.Some? && !Owns(old(songs), session.value, songId) ==>
        r == NotFound && songs == old(songs)
      ensures session.Some? && Owns(old(songs), session.value, songId) ==>
        r == Done && songs == WithTitle(old(songs), songId, newTitle)
    {
      if session.None? {
        return Redirect;
      }
      if !Owns(songs, session.value, songId) {
        return NotFound;
      }
      songs := WithTitle(songs, songId, newTitle);
      r := Done;
    }

    /** `toggleLikeSong`: deletes the caller's like of the song if it
        exists, creates it otherwise. */
    method ToggleLikeSong(session: Option<string>, songId: string) returns (r: ActionResult)
      modifies this`likes
      ensures session.None? ==> r == Redirect && likes == old(likes)
      ensures session.Some? ==> r == Done && likes == Toggled(old(likes), session.value, songId)
    {
      if session.None? {
        return Redirect;
      }
      var user := session.value;
      if (user, songId) in likes {
        likes := likes - {(user, songId)};
      } else {
        likes := likes + {(user, songId)};
      }
      r := Done;
    }
  }
}

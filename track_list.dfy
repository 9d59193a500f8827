/** The creator's track list (frontend/src/components/create/track-list.tsx):
    the search filter, the status-dependent rows, and the select and delete
    handlers that drive the player store and the delete action. */
module TrackList {
  import opened Base
  import opened PlayerStore

  /** A row of the list, as delivered by the page; fields only rendered
      (creation date, lyrics, descriptions) are not part of the model. */
  datatype Track = Track(
    id: string,
    title: Option<string>,
    instrumental: bool,
    prompt: Option<string>,
    thumbnailUrl: Option<string>,
    playUrl: Option<string>,
    status: Option<string>,
    createdByUserName: Option<string>,
    published: bool)

  /** Lower-casing of one character (ASCII letters only). */
  function LowerChar(c: char): char {
    if 'A' <= c <= 'Z' then (c as int + 32) as char else c
  }

  /** `toLowerCase`, character by character. */
  function ToLower(s: string): (r: string)
    ensures |r| == |s|
    ensures forall i :: 0 <= i < |s| ==> r[i] == LowerChar(s[i])
    decreases |s|
  {
    if s == [] then [] else [LowerChar(s[0])] + ToLower(s[1..])
  }

  /** Lower-casing twice is lower-casing once. */
  lemma ToLowerIdempotent(s: string)
    ensures ToLower(ToLower(s)) == ToLower(s)
  {
    assert forall i :: 0 <= i < |s| ==> LowerChar(LowerChar(s[i])) == LowerChar(s[i]);
  }

  /** `s` begins with `p`. */
  predicate StartsWith(s: string, p: string) {
    |p| <= |s| && s[..|p|] == p
  }

  /** `s.includes(sub)`, scanning start positions from the left. */
  predicate Contains(s: string, sub: string)
    decreases |s|
  {
    StartsWith(s, sub) || (|s| > 0 && Contains(s[1..], sub))
  }

  /** `sub` occurs in `s` starting at index `i`. */
  predicate OccursAt(s: string, sub: string, i: int) {
    0 <= i <= |s| - |sub| && s[i..i + |sub|] == sub
  }

  /** The scan finds `sub` exactly when it occurs somewhere in `s`. */
  lemma {:induction false} ContainsIffOccurs(s: string, sub: string)
    ensures Contains(s, sub) <==> exists i :: OccursAt(s, sub, i)
    decreases |s|
  {
    if StartsWith(s, sub) {
      assert OccursAt(s, sub, 0);
    } else if |s| > 0 {
      var t := s[1..];
      ContainsIffOccurs(t, sub);
      if exists j :: OccursAt(t, sub, j) {
        var j :| OccursAt(t, sub, j);
        assert s[j + 1..j + 1 + |sub|] == t[j..j + |sub|];
        assert OccursAt(s, sub, j + 1);
      }
      if exists i :: OccursAt(s, sub, i) {
        var i :| OccursAt(s, sub, i);
        if i != 0 {
          assert t[i - 1..i - 1 + |sub|] == s[i..i + |sub|];
          assert OccursAt(t, sub, i - 1);
        }
      }
    }
  }

  /** The search predicate of the filter: a non-null title alone decides;
      the prompt is consulted only when the title is null; with both null
      the optional chain yields undefined, which is falsy. */
  predicate Matches(t: Track, query: string) {
    if t.title.Some? then Contains(ToLower(t.title.value), ToLower(query))
    else t.prompt.Some? && Contains(ToLower(t.prompt.value), ToLower(query))
  }

  /** Two tracks with the same non-null title match the same queries,
      whatever their prompts. */
  lemma TitleAloneDecides(t1: Track, t2: Track, query: string)
    requires t1.title.Some? && t1.title == t2.title
    ensures Matches(t1, query) <==> Matches(t2, query)
  {
  }

  /** With a title, the match is a case-insensitive substring test on the
      title alone. */
  lemma MatchesByTitle(t: Track, query: string)
    requires t.title.Some?
    ensures Matches(t, query) ==> exists i :: OccursAt(ToLower(t.title.value), ToLower(query), i)
    ensures (exists i :: OccursAt(ToLower(t.title.value), ToLower(query), i)) ==> Matches(t, query)
  {
    ContainsIffOccurs(ToLower(t.title.value), ToLower(query));
  }

  /** Without a title, the match is a case-insensitive substring test on the
      prompt; with neither, the track never matches. */
  lemma MatchesByPrompt(t: Track, query: string)
    requires t.title.None?
    ensures t.prompt.Some? && Matches(t, query) ==>
      exists i :: OccursAt(ToLower(t.prompt.value), ToLower(query), i)
    ensures t.prompt.Some? && (exists i :: OccursAt(ToLower(t.prompt.value), ToLower(query), i)) ==>
      Matches(t, query)
    ensures t.prompt.None? ==> !Matches(t, query)
  {
    if t.prompt.Some? {
      ContainsIffOccurs(ToLower(t.prompt.value), ToLower(query));
    }
  }

  /** Queries that lower-case alike select the same tracks. */
  lemma QueryCaseIrrelevant(t: Track, q1: string, q2: string)
    requires ToLower(q1) == ToLower(q2)
    ensures Matches(t, q1) <==> Matches(t, q2)
  {
  }

  /** `tracks.filter(...)`. */
  function Filter(tracks: seq<Track>, query: string): (r: seq<Track>)
    ensures |r| <= |tracks|
    ensures forall t :: t in r ==> t in tracks && Matches(t, query)
    decreases |tracks|
  {
    if tracks == [] then []
    else (if Matches(tracks[0], query) then [tracks[0]] else []) + Filter(tracks[1..], query)
  }

  /** `a` can be obtained from `b` by deleting elements, keeping the order. */
  predicate IsSubsequence<T(==)>(a: seq<T>, b: seq<T>)
    decreases |b|
  {
    a == [] ||
    (b != [] && ((a[0] == b[0] && IsSubsequence(a[1..], b[1..])) || IsSubsequence(a, b[1..])))
  }

  /** The filtered list keeps the original order. */
  lemma {:induction false} FilterIsSubsequence(tracks: seq<Track>, query: string)
    ensures IsSubsequence(Filter(tracks, query), tracks)
    decreases |tracks|
  {
    if tracks != [] {
      FilterIsSubsequence(tracks[1..], query);
      var r := Filter(tracks, query);
      if Matches(tracks[0], query) {
        assert r == [tracks[0]] + Filter(tracks[1..], query);
        assert r[0] == tracks[0] && r[1..] == Filter(tracks[1..], query);
      } else {
        assert r == Filter(tracks[1..], query);
      }
    }
  }

  /** No matching track is dropped. */
  lemma {:induction false} FilterKeepsMatches(tracks: seq<Track>, query: string, t: Track)
    requires t in tracks && Matches(t, query)
    ensures t in Filter(tracks, query)
    decreases |tracks|
  {
    if tracks[0] != t {
      FilterKeepsMatches(tracks[1..], query, t);
    }
  }

  /** Filtering keeps every copy of a matching track and no copy of any
      other: duplicates are neither merged nor dropped. */
  lemma {:induction false} FilterCounts(tracks: seq<Track>, query: string, t: Track)
    ensures multiset(Filter(tracks, query))[t] == if Matches(t, query) then multiset(tracks)[t] else 0
    decreases |tracks|
  {
    if tracks != [] {
      FilterCounts(tracks[1..], query, t);
      assert tracks == [tracks[0]] + tracks[1..];
      assert multiset(tracks) == multiset([tracks[0]]) + multiset(tracks[1..]);
    }
  }

  /** Filtering the filtered list again changes nothing. */
  lemma {:induction false} FilterIdempotent(tracks: seq<Track>, query: string)
    ensures Filter(Filter(tracks, query), query) == Filter(tracks, query)
    decreases |tracks|
  {
    if tracks != [] {
      FilterIdempotent(tracks[1..], query);
      var r := Filter(tracks, query);
      if Matches(tracks[0], query) {
        assert r == [tracks[0]] + Filter(tracks[1..], query);
        assert r[0] == tracks[0] && r[1..] == Filter(tracks[1..], query);
        assert Filter(r, query) == [r[0]] + Filter(r[1..], query);
      } else {
        assert r == Filter(tracks[1..], query);
      }
    }
  }

  /** With an empty search box the list shows exactly the tracks that have a
      title or a prompt: one with both null is hidden even then. */
  lemma EmptyQueryShowsTitledOrPrompted(tracks: seq<Track>, t: Track)
    ensures t in Filter(tracks, "") <==> t in tracks && (t.title.Some? || t.prompt.Some?)
  {
    if t in tracks && (t.title.Some? || t.prompt.Some?) {
      var field := if t.title.Some? then t.title.value else t.prompt.value;
      assert StartsWith(ToLower(field), ToLower(""));
      FilterKeepsMatches(tracks, "", t);
    }
  }

  /** The four kinds of row the status switch renders. */
  datatype RowKind = FailedRow | NoCreditsRow | ProcessingRow | PlayableRow

  /** The status `switch`: three fixed strings pick a disabled row; every
      other status, null included, gives the clickable row. */
  function RowKindOf(status: Option<string>): RowKind {
    if status == Some("failed") then FailedRow
    else if status == Some("no credits") then NoCreditsRow
    else if status == Some("queued") || status == Some("processing") then ProcessingRow
    else PlayableRow
  }

  /** Only the clickable row calls `handleTrackSelect`. */
  predicate Selectable(status: Option<string>) {
    RowKindOf(status) == PlayableRow
  }

  /** A row is selectable exactly when its status is none of the four
      blocking statuses. */
  lemma SelectableIff(status: Option<string>)
    ensures Selectable(status) <==>
      status !in {Some("failed"), Some("no credits"), Some("queued"), Some("processing")}
    ensures Selectable(None) && Selectable(Some("completed")) && Selectable(Some(""))
  {
  }

  /** The descriptor handed to `setTrack`. */
  function Descriptor(t: Track): (d: PlayerTrack)
    ensures d.id == t.id && d.url == t.playUrl && d.artwork == t.thumbnailUrl
    ensures d.title == t.title && d.prompt == t.prompt && d.createdByUserName == t.createdByUserName
  {
    PlayerTrack(t.id, t.title, t.playUrl, t.thumbnailUrl, t.prompt, t.createdByUserName)
  }

  /** `track.title ?? "Untitled"`, the name shown in the delete confirmation:
      an empty title is kept, only a null one is replaced. */
  function ConfirmTitle(t: Track): (name: string)
    ensures t.title.Some? ==> name == t.title.value
    ensures t.title.None? ==> name == "Untitled"
  {
    if t.title.Some? then t.title.value else "Untitled"
  }

  /** How a selection ended. */
  datatype SelectOutcome = Ignored | NotReady | Selected

  /** The list's handler state over the shared player store. */
  class TrackListView {
    const store: Store
    var loadingTrackId: Option<string>
    var deletingTrackId: Option<string>

    constructor (store: Store)
      ensures this.store == store && loadingTrackId == None && deletingTrackId == None
    {
      this.store := store;
      loadingTrackId := None;
      deletingTrackId := None;
    }

    /** `handleTrackSelect`: ignored while a selection is loading; a track
        without a play url only raises a notice; otherwise one autoplay
        request, then the descriptor, then the loading marker is cleared. */
    method HandleTrackSelect(t: Track) returns (outcome: SelectOutcome)
      requires store.Valid()
      modifies store, this`loadingTrackId
      ensures store.Valid()
      ensures Truthy(old(loadingTrackId)) ==>
        outcome == Ignored && store.history == old(store.history) &&
        store.State() == old(store.State()) && loadingTrackId == old(loadingTrackId)
      ensures !Truthy(old(loadingTrackId)) && !Truthy(t.playUrl) ==>
        outcome == NotReady && store.history == old(store.history) &&
        store.State() == old(store.State()) && loadingTrackId == old(loadingTrackId)
      ensures !Truthy(old(loadingTrackId)) && Truthy(t.playUrl) ==>
        outcome == Selected && loadingTrackId == None &&
        store.history == old(store.history) + [StoreOp.RequestAutoplay, StoreOp.SetTrack(Descriptor(t))] &&
        store.track == Some(Descriptor(t)) &&
        store.autoplayRequestId == old(store.autoplayRequestId) + 1 &&
        store.externalAnalyser == old(store.externalAnalyser)
    {
      if Truthy(loadingTrackId) {
        return Ignored;
      }
      if !Truthy(t.playUrl) {
        return NotReady;
      }
      loadingTrackId := Some(t.id);
      store.RequestAutoplay();
      store.SetTrack(Descriptor(t));
      loadingTrackId := None;
      outcome := Selected;
    }

    /** `handleDeleteTrack`: nothing without confirmation; otherwise the
        delete action is awaited (`deleteOk` is its outcome) and the
        deleting marker is cleared whichever way it ended. */
    method HandleDeleteTrack(trackId: string, confirmed: bool, deleteOk: bool)
      returns (outcome: DeleteOutcome, markedWhileDeleting: Option<string>)
      modifies this`deletingTrackId
      ensures !confirmed ==>
        outcome == Cancelled && deletingTrackId == old(deletingTrackId) && markedWhileDeleting == old(deletingTrackId)
      ensures confirmed ==>
        outcome == (if deleteOk then Deleted else DeleteFailed) &&
        markedWhileDeleting == Some(trackId) && deletingTrackId == None
    {
      if !confirmed {
        return Cancelled, deletingTrackId;
      }
      deletingTrackId := Some(trackId);
      markedWhileDeleting := deletingTrackId;
      outcome := if deleteOk then Deleted else DeleteFailed;
      deletingTrackId := None;
    }
  }
}

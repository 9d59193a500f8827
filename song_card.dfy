/** A song card of the public feed (frontend/src/components/home/song-card.tsx):
    play, optimistic like, owner check and delete. */
module SongCard {
  import opened Base
  import opened PlayerStore
  import opened SongActions

  /** The song as the feed delivers it: the row, the author's name, the
      like count and, when loaded, the caller's own likes of it. */
  datatype FeedSong = FeedSong(
    id: string,
    userId: string,
    title: Option<string>,
    prompt: Option<string>,
    thumbnailUrl: Option<string>,
    userName: Option<string>,
    likeCount: int,
    likes: Option<seq<string>>)

  /** The initial `isLiked`: the caller's likes were loaded and there is one. */
  function InitiallyLiked(song: FeedSong): (liked: bool)
    ensures liked <==> song.likes.Some? && |song.likes.value| > 0
  {
    if song.likes.Some? then |song.likes.value| > 0 else false
  }

  /** `currentUserId === song.userId`; an absent current user owns nothing. */
  predicate IsOwner(currentUserId: Option<string>, song: FeedSong) {
    currentUserId == Some(song.userId)
  }

  /** Ownership is plain identity of user ids, and a visitor never owns. */
  lemma IsOwnerIff(currentUserId: Option<string>, song: FeedSong)
    ensures IsOwner(currentUserId, song) <==> currentUserId.Some? && currentUserId.value == song.userId
    ensures !IsOwner(None, song)
  {
  }

  /** The card's optimistic like state: whether it shows as liked, and the count. */
  datatype LikeView = LikeView(liked: bool, count: int)

  /** One click on the heart: the flag flips, and the count moves by one
      in the direction of the new flag. */
  function LikeStep(v: LikeView): (w: LikeView)
    ensures w.liked == !v.liked
    ensures w.count == (if v.liked then v.count - 1 else v.count + 1)
  {
    LikeView(!v.liked, if v.liked then v.count - 1 else v.count + 1)
  }

  /** Two clicks restore both the flag and the count. */
  lemma LikeStepTwiceRestores(v: LikeView)
    ensures LikeStep(LikeStep(v)) == v
  {
  }

  /** The optimistic flag stays in agreement with the server: if the card
      showed the caller's like correctly, it still does once the
      corresponding toggle has been applied to the likes table. */
  lemma OptimisticLikeAgrees(v: LikeView, likes: set<(string, string)>, user: string, songId: string)
    requires v.liked == ((user, songId) in likes)
    ensures LikeStep(v).liked == ((user, songId) in Toggled(likes, user, songId))
  {
    ToggledFlipsOnlyThePair(likes, user, songId);
  }

  /** The descriptor `handlePlay` hands to `setTrack`. */
  function CardDescriptor(song: FeedSong, playUrl: Option<string>): (d: PlayerTrack)
    ensures d.id == song.id && d.url == playUrl && d.artwork == song.thumbnailUrl
    ensures d.title == song.title && d.prompt == song.prompt && d.createdByUserName == song.userName
  {
    PlayerTrack(song.id, song.title, playUrl, song.thumbnailUrl, song.prompt, song.userName)
  }

  /** The card's handler state over the shared player store. */
  class Card {
    const store: Store
    const song: FeedSong
    var isLoading: bool
    var isDeleting: bool
    var isLiked: bool
    var likesCount: int

    /** The state of a freshly rendered card. */
    constructor (store: Store, song: FeedSong)
      ensures this.store == store && this.song == song
      ensures !isLoading && !isDeleting
      ensures isLiked == InitiallyLiked(song) && likesCount == song.likeCount
    {
      this.store := store;
      this.song := song;
      isLoading := false;
      isDeleting := false;
      isLiked := InitiallyLiked(song);
      likesCount := song.likeCount;
    }

    /** `handlePlay`: the spinner goes on, then the url lookup runs. If it
        rejects (`lookupOk` false), the handler stops there: nothing reaches
        the store and, with no `finally`, the spinner stays on. Otherwise
        `playUrl` is the looked-up url, used with no check: one autoplay
        request, then the descriptor, then the spinner goes off.
        `loadingDuring` is `isLoading` once the lookup has settled. */
    method HandlePlay(lookupOk: bool, playUrl: Option<string>) returns (loadingDuring: bool)
      requires store.Valid()
      modifies store, this`isLoading
      ensures store.Valid() && loadingDuring
      ensures !lookupOk ==>
        isLoading && store.history == old(store.history) && store.track == old(store.track)
        && store.autoplayRequestId == old(store.autoplayRequestId)
        && store.externalAnalyser == old(store.externalAnalyser)
      ensures lookupOk ==>
        !isLoading
        && store.history == old(store.history) + [StoreOp.RequestAutoplay, StoreOp.SetTrack(CardDescriptor(song, playUrl))]
        && store.track == Some(CardDescriptor(song, playUrl))
        && store.autoplayRequestId == old(store.autoplayRequestId) + 1
        && store.externalAnalyser == old(store.externalAnalyser)
    {
      isLoading := true;
      loadingDuring := isLoading;
      if !lookupOk {
        return;
      }
      store.RequestAutoplay();
      store.SetTrack(CardDescriptor(song, playUrl));
      isLoading := false;
    }

    /** `handleLike`: the optimistic update; the toggle request it then
        sends is `SongActions.SongDb.ToggleLikeSong`. */
    method HandleLike()
      modifies this`isLiked, this`likesCount
      ensures LikeView(isLiked, likesCount) == LikeStep(LikeView(old(isLiked), old(likesCount)))
    {
      var wasLiked := isLiked;
      isLiked := !wasLiked;
      likesCount := if wasLiked then likesCount - 1 else likesCount + 1;
    }

    /** `handleDelete`: nothing without confirmation; otherwise the delete
        action is awaited (`deleteOk` is its outcome) and `isDeleting` is
        cleared whichever way it ended. */
    method HandleDelete(confirmed: bool, deleteOk: bool) returns (outcome: DeleteOutcome, deletingDuring: bool)
      modifies this`isDeleting
      ensures !confirmed ==> outcome == Cancelled && isDeleting == old(isDeleting) && deletingDuring == old(isDeleting)
      ensures confirmed ==>
        outcome == (if deleteOk then Deleted else DeleteFailed) && deletingDuring && !isDeleting
    {
      if !confirmed {
        return Cancelled, isDeleting;
      }
      isDeleting := true;
      deletingDuring := isDeleting;
      outcome := if deleteOk then Deleted else DeleteFailed;
      isDeleting := false;
    }
  }
}

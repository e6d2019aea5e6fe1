/** The heart button of a song: an `isLiked` flag kept in step with the
    `liked_songs` table of (user, song) rows through a delete or an insert
    that the database may reject. */
module LikeButton {
  import opened Common

  /** A row of the `liked_songs` table. */
  datatype LikedSong = LikedSong(userId: string, songId: string)

  /** What the database answers to a query, a delete or an insert. */
  datatype DbResult = Done | DbError(message: string)

  /** What a click can change: the table and the button's flag. */
  datatype LikeState = LikeState(likedSongs: set<LikedSong>, isLiked: bool)

  /** The flag shows whether the user's row for the song exists. */
  predicate InSync(s: LikeState, userId: string, songId: string) {
    s.isLiked <==> LikedSong(userId, songId) in s.likedSongs
  }

  /** `handleLike` with a signed-in user: delete the row when liked, insert
      it when not, and flip the flag only if the database accepted. */
  function Toggle(s: LikeState, userId: string, songId: string, r: DbResult): (t: LikeState)
    // a rejected write changes nothing
    ensures r.DbError? ==> t == s
    // an accepted write flips the flag and makes the row agree with the new flag
    ensures r.Done? ==> t.isLiked == !s.isLiked && (LikedSong(userId, songId) in t.likedSongs <==> t.isLiked)
    // no other row is touched
    ensures t.likedSongs - {LikedSong(userId, songId)} == s.likedSongs - {LikedSong(userId, songId)}
    ensures InSync(s, userId, songId) ==> InSync(t, userId, songId)
  {
    var row := LikedSong(userId, songId);
    if s.isLiked then
      if r.DbError? then s else LikeState(s.likedSongs - {row}, false)
    else
      if r.DbError? then s else LikeState(s.likedSongs + {row}, true)
  }

  /** The effect run on mount: with a user id, look the row up and set the
      flag when it is found without error. */
  function Load(s: LikeState, user: Option<User>, songId: string, r: DbResult): (t: LikeState)
    ensures t.likedSongs == s.likedSongs
    // the effect only ever sets the flag, never clears it
    ensures s.isLiked ==> t.isLiked
    // it sets the flag only when a signed-in user's row was found without error
    ensures t.isLiked && !s.isLiked ==>
      user.Some? && r.Done? && LikedSong(user.value.id, songId) in s.likedSongs
    // from the initial state, a successful lookup brings the flag in step with the table
    ensures !s.isLiked && user.Some? && user.value.id != "" && r.Done? ==> InSync(t, user.value.id, songId)
  {
    if user.None? || user.value.id == "" then s
    else if r.Done? && LikedSong(user.value.id, songId) in s.likedSongs then s.(isLiked := true)
    else s
  }

  /** A series of clicks by one signed-in user, each with the database's answer. */
  function Clicks(s: LikeState, userId: string, songId: string, results: seq<DbResult>): LikeState
    decreases |results|
  {
    if results == [] then s
    else Clicks(Toggle(s, userId, songId, results[0]), userId, songId, results[1..])
  }

  /** How many of the answers accepted the write. */
  function Accepted(results: seq<DbResult>): nat {
    if results == [] then 0
    else (if results[0].Done? then 1 else 0) + Accepted(results[1..])
  }

  /** Clicks keep the flag in step with the table and touch only the user's
      row for this song. */
  lemma {:induction false} ClicksKeepSync(s: LikeState, userId: string, songId: string, results: seq<DbResult>)
    requires InSync(s, userId, songId)
    ensures InSync(Clicks(s, userId, songId, results), userId, songId)
    ensures Clicks(s, userId, songId, results).likedSongs - {LikedSong(userId, songId)}
         == s.likedSongs - {LikedSong(userId, songId)}
    decreases |results|
  {
    if results != [] {
      ClicksKeepSync(Toggle(s, userId, songId, results[0]), userId, songId, results[1..]);
    }
  }

  /** The flag ends flipped exactly when an odd number of writes was accepted. */
  lemma {:induction false} ClicksParity(s: LikeState, userId: string, songId: string, results: seq<DbResult>)
    ensures Clicks(s, userId, songId, results).isLiked == (s.isLiked != (Accepted(results) % 2 == 1))
    decreases |results|
  {
    if results != [] {
      ClicksParity(Toggle(s, userId, songId, results[0]), userId, songId, results[1..]);
    }
  }

  class Component {
    const songId: string
    /** The `liked_songs` table. */
    var likedSongs: set<LikedSong>
    var isLiked: bool
    var authModalOpen: bool
    var toasts: seq<Toast>
    /** Number of `router.refresh()` calls. */
    var refreshes: nat

    function State(): LikeState
      reads this
    {
      LikeState(likedSongs, isLiked)
    }

    /** Mounting the button: `isLiked` starts false. */
    constructor (songId: string, likedSongs: set<LikedSong>)
      ensures this.songId == songId && this.likedSongs == likedSongs && !isLiked
      ensures !authModalOpen && toasts == [] && refreshes == 0
    {
      this.songId := songId;
      this.likedSongs := likedSongs;
      isLiked := false;
      authModalOpen := false;
      toasts := [];
      refreshes := 0;
    }

    /** The mount effect's lookup (`.single()` finds the one matching row). */
    method FetchLiked(user: Option<User>, result: DbResult)
      modifies this
      ensures State() == Load(old(State()), user, songId, result)
      ensures authModalOpen == old(authModalOpen) && toasts == old(toasts) && refreshes == old(refreshes)
    {
      if user.None? || user.value.id == "" {
        return;
      }
      var found := result.Done? && LikedSong(user.value.id, songId) in likedSongs;
      if found {
        isLiked := true;
      }
    }

    /** `handleLike`. */
    method HandleLike(user: Option<User>, result: DbResult)
      modifies this
      // signed out: only the auth modal opens
      ensures user.None? ==>
        authModalOpen && State() == old(State()) && toasts == old(toasts) && refreshes == old(refreshes)
      // signed in: the toggle, then a refresh whatever the database answered
      ensures user.Some? ==>
        State() == Toggle(old(State()), user.value.id, songId, result) &&
        authModalOpen == old(authModalOpen) && refreshes == old(refreshes) + 1
      ensures user.Some? && result.DbError? ==> toasts == old(toasts) + [ErrorToast(result.message)]
      ensures user.Some? && result.Done? ==>
        toasts == old(toasts) + (if old(isLiked) then [] else [SuccessToast("Liked!")])
    {
      if user.None? {
        authModalOpen := true;
        return;
      }
      var row := LikedSong(user.value.id, songId);
      if isLiked {
        match result {
          case DbError(message) =>
            toasts := toasts + [ErrorToast(message)];
          case Done =>
            likedSongs := likedSongs - {row};
            isLiked := false;
        }
      } else {
        match result {
          case DbError(message) =>
            toasts := toasts + [ErrorToast(message)];
          case Done =>
            likedSongs := likedSongs + {row};
            isLiked := true;
            toasts := toasts + [SuccessToast("Liked!")];
        }
      }
      refreshes := refreshes + 1;
    }
  }
}

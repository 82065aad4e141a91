/** The song list component (client/src/components/SongList.js): whether it
    loads the user's favorites itself, its initial state, the favorites load,
    and the delete and add buttons. A songs prop that is not an array is
    `None`; request outcomes are inputs. */
module SongList {
  import opened Common

  datatype Mode = Favorites | List | Auto(name: string)

  /** One displayed song; rows loaded from the favorites route carry the
      favorite's id. */
  datatype Entry = Entry(songId: string, favoriteId: Option<string>)

  /** A favorites row: its own id and its populated song. */
  datatype FavoriteRow = FavoriteRow(id: string, songId: string)

  /** `shouldFetchFavorites`. */
  function ShouldFetchFavorites(mode: Mode, songsProp: Option<seq<Entry>>): (r: bool)
    ensures mode == Favorites ==> r
    ensures mode == List ==> !r
    ensures mode.Auto? ==> (r <==> songsProp.None?)
  {
    if mode == Favorites then true
    else if mode == List then false
    else songsProp.None?
  }

  /** `prev.filter(song => song.favoriteId !== favoriteId)`. */
  function WithoutFavorite(songs: seq<Entry>, favoriteId: string): (r: seq<Entry>)
    ensures |r| <= |songs|
    ensures forall e :: e in r <==> e in songs && e.favoriteId != Some(favoriteId)
  {
    if songs == [] then []
    else
      var rest := WithoutFavorite(songs[..|songs| - 1], favoriteId);
      var last := songs[|songs| - 1];
      assert songs == songs[..|songs| - 1] + [last];
      if last.favoriteId == Some(favoriteId) then rest else rest + [last]
  }

  /** The filter distributes over concatenation, so the kept entries stay in
      their order. */
  lemma {:induction false} WithoutFavoriteAppend(a: seq<Entry>, b: seq<Entry>, favoriteId: string)
    ensures WithoutFavorite(a + b, favoriteId) == WithoutFavorite(a, favoriteId) + WithoutFavorite(b, favoriteId)
    decreases |b|
  {
    if b != [] {
      var bi := b[..|b| - 1];
      WithoutFavoriteAppend(a, bi, favoriteId);
      assert (a + b)[..|a + b| - 1] == a + bi;
      assert (a + b)[|a + b| - 1] == b[|b| - 1];
    } else {
      assert a + b == a;
    }
  }

  /** Entries of other favorites are all kept, in order. */
  lemma {:induction false} WithoutFavoriteKeepsOthers(songs: seq<Entry>, favoriteId: string)
    requires forall e :: e in songs ==> e.favoriteId != Some(favoriteId)
    ensures WithoutFavorite(songs, favoriteId) == songs
  {
    if songs != [] {
      WithoutFavoriteKeepsOthers(songs[..|songs| - 1], favoriteId);
      assert songs == songs[..|songs| - 1] + [songs[|songs| - 1]];
    }
  }

  /** The list a favorites load shows: each row's song with the row's id. */
  function FavoriteEntries(rows: seq<FavoriteRow>): (r: seq<Entry>)
    ensures |r| == |rows|
    ensures forall i :: 0 <= i < |rows| ==> r[i] == Entry(rows[i].songId, Some(rows[i].id))
  {
    seq(|rows|, i requires 0 <= i < |rows| => Entry(rows[i].songId, Some(rows[i].id)))
  }

  /** Deleting a favorite after a favorites load removes exactly that row. */
  lemma DeleteLoadedFavorite(rows: seq<FavoriteRow>, k: nat)
    requires k < |rows|
    requires forall i, j :: 0 <= i < j < |rows| ==> rows[i].id != rows[j].id
    ensures WithoutFavorite(FavoriteEntries(rows), rows[k].id)
            == FavoriteEntries(rows[..k]) + FavoriteEntries(rows[k + 1..])
  {
    var all := FavoriteEntries(rows);
    var id := rows[k].id;
    assert all == FavoriteEntries(rows[..k]) + [all[k]] + FavoriteEntries(rows[k + 1..]);
    WithoutFavoriteAppend(FavoriteEntries(rows[..k]) + [all[k]], FavoriteEntries(rows[k + 1..]), id);
    WithoutFavoriteAppend(FavoriteEntries(rows[..k]), [all[k]], id);
    assert [all[k]] == [] + [all[k]];
    WithoutFavoriteKeepsOthers(FavoriteEntries(rows[..k]), id);
    WithoutFavoriteKeepsOthers(FavoriteEntries(rows[k + 1..]), id);
  }

  class SongListState {
    /** The `mode` prop, fixed for the component's lifetime. */
    const mode: Mode
    var shouldFetch: bool
    var songs: seq<Entry>
    var loading: bool
    var addedIds: set<string>

    /** The initial state: the prop when it is an array, else nothing, and
        a spinner exactly when the component loads favorites itself. */
    constructor(mode: Mode, songsProp: Option<seq<Entry>>)
      ensures this.mode == mode
      ensures shouldFetch == ShouldFetchFavorites(mode, songsProp)
      ensures songs == (if songsProp.Some? then songsProp.value else [])
      ensures loading == shouldFetch
      ensures addedIds == {}
    {
      this.mode := mode;
      shouldFetch := ShouldFetchFavorites(mode, songsProp);
      songs := if songsProp.Some? then songsProp.value else [];
      loading := shouldFetch;
      addedIds := {};
    }

    /** The favorites effect: nothing unless the component loads favorites and
        a user is known; then the rows (`None` when the request failed, which
        shows an empty list), and the spinner goes off. */
    method FetchFavorites(userId: Option<string>, rows: Option<seq<FavoriteRow>>)
      modifies this
      ensures !old(shouldFetch) || !Truthy(userId) ==> unchanged(this)
      ensures old(shouldFetch) && Truthy(userId) ==>
                songs == (if rows.Some? then FavoriteEntries(rows.value) else []) && !loading
                && shouldFetch == old(shouldFetch) && addedIds == old(addedIds)
    {
      if !shouldFetch || !Truthy(userId) {
        return;
      }
      loading := true;
      if rows.Some? {
        songs := FavoriteEntries(rows.value);
      } else {
        songs := [];
      }
      loading := false;
    }

    /** A new songs prop: the memoised `shouldFetchFavorites` is recomputed
        from the mode and the new prop, and the songs-prop effect lets an
        array prop replace the list and end the spinner; any other prop
        leaves list and spinner alone. When `shouldFetch` changes, the
        favorites effect runs again: the caller then calls `FetchFavorites`. */
    method PropChanged(songsProp: Option<seq<Entry>>)
      modifies this
      ensures shouldFetch == ShouldFetchFavorites(mode, songsProp)
      ensures songsProp.Some? ==> songs == songsProp.value && !loading
      ensures songsProp.None? ==> songs == old(songs) && loading == old(loading)
      ensures addedIds == old(addedIds)
    {
      shouldFetch := ShouldFetchFavorites(mode, songsProp);
      if songsProp.Some? {
        songs := songsProp.value;
        loading := false;
      }
    }

    /** `handleDelete`: after a successful delete request the entries with
        that favorite id leave the list; a failed one changes nothing. */
    method HandleDelete(favoriteId: string, deleted: bool)
      modifies this
      ensures deleted ==> songs == WithoutFavorite(old(songs), favoriteId)
      ensures !deleted ==> songs == old(songs)
      ensures loading == old(loading) && addedIds == old(addedIds) && shouldFetch == old(shouldFetch)
    {
      if deleted {
        songs := WithoutFavorite(songs, favoriteId);
      }
    }

    /** `handleAdd`: after a successful post the song's id joins `addedIds`;
        adding an id already there leaves the set as it was. */
    method HandleAdd(songId: string, saved: bool)
      modifies this
      ensures saved ==> addedIds == old(addedIds) + {songId}
      ensures !saved ==> addedIds == old(addedIds)
      ensures songId in old(addedIds) ==> addedIds == old(addedIds)
      ensures songs == old(songs) && loading == old(loading) && shouldFetch == old(shouldFetch)
    {
      if saved {
        addedIds := addedIds + {songId};
      }
    }
  }
}

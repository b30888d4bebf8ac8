/**
 * The refresher's functions as the program runs them: loops and calls on the
 * client, each proved to have the effect and result its Refresher function
 * describes.
 */
module Program {
  import opened Wrappers
  import opened Service
  import opened Refresher

  /** get_top_tracks: request pages of 50 from offset 0 until a short page or `limit` tracks, then cut to `limit`. */
  method GetTopTracks(c: Client, limit: int, timeRange: string) returns (tracks: seq<Track>)
    modifies c`log
    ensures tracks == RankedTracks(c.top, timeRange, limit)
    ensures c.log == old(c.log) + Requests(PagesRequested(c.top, timeRange, limit), timeRange)
  {
    ghost var top := c.top;
    ghost var log0 := c.log;
    ghost var whole := Paginate(top, timeRange, limit, 0, []);
    ghost var offsets: seq<nat> := [];
    var acc: seq<Track> := [];
    var offset: nat := 0;
    while |acc| < limit
      invariant Paginate(top, timeRange, limit, offset, acc).0 == whole.0
      invariant offsets + Paginate(top, timeRange, limit, offset, acc).1 == whole.1
      invariant c.log == log0 + Requests(offsets, timeRange)
    {
      var page := c.CurrentUserTopTracks(offset, timeRange);
      RequestsSnoc(log0, offsets, offset, timeRange);
      if |page| < PageSize {
        assert acc + page == whole.0 && offsets + [offset] == whole.1 by {
          PaginateStep(top, timeRange, limit, offset, acc);
        }
        offsets := offsets + [offset];
        acc := acc + page;
        break;
      }
      assert Paginate(top, timeRange, limit, offset + PageSize, acc + page).0 == whole.0
          && offsets + [offset] + Paginate(top, timeRange, limit, offset + PageSize, acc + page).1 == whole.1 by {
        PaginateStep(top, timeRange, limit, offset, acc);
      }
      offsets := offsets + [offset];
      acc := acc + page;
      offset := offset + PageSize;
    }
    assert acc == whole.0 && offsets == whole.1;
    tracks := SliceTo(acc, limit);
  }

  /** get_or_create_playlist: the first listed playlist named `name` gets its details re-applied; else one is created. */
  method GetOrCreatePlaylist(c: Client, name: string, isPrivate: bool, description: string) returns (p: Playlist)
    modifies c
    ensures (c.State(), p) == LocatePlaylist(old(c.State()), name, isPrivate, description)
  {
    var listing := c.UserPlaylists();
    var i := 0;
    while i < |listing|
      invariant i <= |listing|
      invariant forall j :: 0 <= j < i ==> listing[j].name != name
      invariant (c.State(), listing) == ListPlaylists(old(c.State()))
    {
      if listing[i].name == name {
        c.UserPlaylistChangeDetails(listing[i].id, !isPrivate, description);
        return listing[i];
      }
      i := i + 1;
    }
    p := c.UserPlaylistCreate(name, !isPrivate, description);
  }

  /**
   * update_playlist: an unknown time range fails at the label lookup, before
   * any request; otherwise the playlist is emptied and refilled with the
   * ranked URIs.
   */
  method UpdatePlaylist(c: Client, timeRange: string, trackLimit: int, isPrivate: bool) returns (result: Result<(), Error>)
    modifies c
    ensures match Refresh(c.top, old(c.State()), timeRange, trackLimit, isPrivate)
      case Ok(a) => result.Ok? && c.State() == a
      case Err(e) => result == Err(e) && c.State() == old(c.State())
  {
    if timeRange !in TimeRangeNames {
      return Err(UnknownTimeRange(timeRange));
    }
    var rangeName := TimeRangeNames[timeRange];
    var playlistName := PlaylistName(trackLimit, rangeName);
    var playlistDescription := PlaylistDescription(trackLimit, rangeName);
    var topTracks := GetTopTracks(c, trackLimit, timeRange);
    var playlist := GetOrCreatePlaylist(c, playlistName, isPrivate, playlistDescription);
    c.PlaylistReplaceItems(playlist.id, []);
    var trackUris := Uris(topTracks);
    c.PlaylistAddItems(playlist.id, trackUris);
    result := Ok(());
  }

  /** main: refresh the three windows in order, limit 100, public; a failure ends the run. */
  method RefreshAll(c: Client) returns (result: Result<(), Error>)
    modifies c
    ensures RunAll(c.top, old(c.State()), MainTimeRanges, MainTrackLimit, MainIsPrivate)
         == if result.Ok? then Completed(c.State()) else Stopped(c.State(), result.error)
  {
    var trackLimit := 100;
    var isPlaylistPrivate := false;
    var timeRanges := ["short_term", "medium_term", "long_term"];
    for i := 0 to |timeRanges|
      invariant RunAll(c.top, c.State(), timeRanges[i..], trackLimit, isPlaylistPrivate)
             == RunAll(c.top, old(c.State()), timeRanges, trackLimit, isPlaylistPrivate)
    {
      RunAllStep(c.top, c.State(), timeRanges, i, trackLimit, isPlaylistPrivate);
      result := UpdatePlaylist(c, timeRanges[i], trackLimit, isPlaylistPrivate);
      if result.Err? {
        return;
      }
    }
    result := Ok(());
  }
}

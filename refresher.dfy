/**
 * What the playlist refresher computes and does to the account, as functions:
 * the paginated fetch of the ranked tracks, the find-first-or-create lookup of a
 * playlist by name, the refresh of one time window, and the run over the three
 * windows. The lemmas state what these promise.
 */
module Refresher {
  import opened Wrappers
  import opened Service
  import Format

  /** The page size every top-tracks request asks for. */
  const PageSize: nat := 50

  // ---------------------------------------------------------------------------
  // get_top_tracks
  // ---------------------------------------------------------------------------

  /** Python's `s[:stop]`: a negative stop counts from the end. */
  function SliceTo<T>(s: seq<T>, stop: int): seq<T>
  {
    if 0 <= stop then s[..if stop < |s| then stop else |s|]
    else s[..if |s| + stop < 0 then 0 else |s| + stop]
  }

  /**
   * The pagination loop, entered at `offset` with `acc` already accumulated:
   * the tracks accumulated when it ends and the offsets it requests, in order.
   */
  function Paginate(top: TopTracksSource, timeRange: string, limit: int, offset: nat, acc: seq<Track>)
    : (seq<Track>, seq<nat>)
    decreases limit - |acc|
  {
    if |acc| >= limit then (acc, [])
    else
      var page := top(offset, timeRange);
      if |page| < PageSize then (acc + page, [offset])
      else
        var rest := Paginate(top, timeRange, limit, offset + PageSize, acc + page);
        (rest.0, [offset] + rest.1)
  }

  /** One turn of the pagination loop, for a caller that runs it step by step. */
  lemma PaginateStep(top: TopTracksSource, timeRange: string, limit: int, offset: nat, acc: seq<Track>)
    requires |acc| < limit
    ensures var page := top(offset, timeRange);
      var r := Paginate(top, timeRange, limit, offset, acc);
      if |page| < PageSize then r == (acc + page, [offset])
      else
        var rest := Paginate(top, timeRange, limit, offset + PageSize, acc + page);
        r.0 == rest.0 && r.1 == [offset] + rest.1
  {
  }

  /** The requests for one more offset are those before it, then it. */
  lemma RequestsSnoc(log: seq<Call>, offsets: seq<nat>, offset: nat, timeRange: string)
    ensures log + Requests(offsets + [offset], timeRange) == log + Requests(offsets, timeRange) + [TopTracksCall(offset, timeRange)]
  {
    assert Requests(offsets + [offset], timeRange) == Requests(offsets, timeRange) + [TopTracksCall(offset, timeRange)];
  }

  /** The offsets get_top_tracks requests. */
  function PagesRequested(top: TopTracksSource, timeRange: string, limit: int): seq<nat> {
    Paginate(top, timeRange, limit, 0, []).1
  }

  /** The tracks get_top_tracks returns. */
  function RankedTracks(top: TopTracksSource, timeRange: string, limit: int): seq<Track> {
    SliceTo(Paginate(top, timeRange, limit, 0, []).0, limit)
  }

  /** The top-tracks requests for the given offsets, as the service receives them. */
  function Requests(offsets: seq<nat>, timeRange: string): seq<Call>
  {
    seq(|offsets|, i requires 0 <= i < |offsets| => TopTracksCall(offsets[i], timeRange))
  }

  /** get_top_tracks as a whole: the account after its requests, and its result. */
  function FetchTopTracks(top: TopTracksSource, a: Account, limit: int, timeRange: string): (Account, seq<Track>) {
    (a.(log := a.log + Requests(PagesRequested(top, timeRange, limit), timeRange)),
     RankedTracks(top, timeRange, limit))
  }

  /** The k-th page of the history: the one at offset k * PageSize. */
  function Page(top: TopTracksSource, timeRange: string, k: nat): seq<Track> {
    top(k * PageSize, timeRange)
  }

  /** Pages 0 .. n-1 of the history, concatenated in order. */
  function Pages(top: TopTracksSource, timeRange: string, n: nat): seq<Track> {
    if n == 0 then [] else Pages(top, timeRange, n - 1) + Page(top, timeRange, n - 1)
  }

  /**
   * The pagination loop entered after the first k pages: it requests pages
   * k, k+1, ... in order, each while fewer than `limit` tracks are held, every
   * one but the last full, and stops on a short page or once `limit` is reached;
   * what it holds at the end is the concatenation of every page requested.
   */
  lemma {:induction false} PaginateFrom(top: TopTracksSource, timeRange: string, limit: int, k: nat)
    ensures var r := Paginate(top, timeRange, limit, k * PageSize, Pages(top, timeRange, k));
      && (|r.1| == 0 <==> |Pages(top, timeRange, k)| >= limit)
      && r.0 == Pages(top, timeRange, k + |r.1|)
      && (forall i :: 0 <= i < |r.1| ==> r.1[i] == (k + i) * PageSize)
      && (forall j :: k <= j < k + |r.1| ==> |Pages(top, timeRange, j)| < limit)
      && (forall j :: k <= j < k + |r.1| - 1 ==> |Page(top, timeRange, j)| >= PageSize)
      && (|r.1| > 0 ==> |Page(top, timeRange, k + |r.1| - 1)| < PageSize || |r.0| >= limit)
    decreases limit - |Pages(top, timeRange, k)|
  {
    var acc := Pages(top, timeRange, k);
    var page := Page(top, timeRange, k);
    assert Pages(top, timeRange, k + 1) == acc + page;
    if |acc| < limit && |page| >= PageSize {
      PaginateFrom(top, timeRange, limit, k + 1);
      assert k * PageSize + PageSize == (k + 1) * PageSize;
    }
  }

  /** With no positive limit nothing is requested and nothing returned. */
  lemma NoRequestWithoutLimit(top: TopTracksSource, timeRange: string, limit: int)
    requires limit <= 0
    ensures PagesRequested(top, timeRange, limit) == []
    ensures RankedTracks(top, timeRange, limit) == []
  {
  }

  /** The result never holds more than `limit` tracks. */
  lemma RankedTracksAtMostLimit(top: TopTracksSource, timeRange: string, limit: int)
    ensures |RankedTracks(top, timeRange, limit)| <= if limit < 0 then 0 else limit
  {
  }

  /**
   * The requests go to offsets 0, 50, 100, ... in increasing order, at least one
   * when the limit is positive, and the result is a prefix of the pages they
   * returned, concatenated in request order.
   */
  lemma RankedTracksArePrefix(top: TopTracksSource, timeRange: string, limit: int)
    ensures var offsets := PagesRequested(top, timeRange, limit);
      && (limit > 0 <==> |offsets| > 0)
      && (forall i :: 0 <= i < |offsets| ==> offsets[i] == i * PageSize)
      && RankedTracks(top, timeRange, limit) <= Pages(top, timeRange, |offsets|)
  {
    PaginateFrom(top, timeRange, limit, 0);
  }

  /**
   * Pagination ends right after the first short page: every page requested
   * before the last was full and was requested while fewer than `limit` tracks
   * were held; the last was short, or `limit` had been reached.
   */
  lemma PaginationStops(top: TopTracksSource, timeRange: string, limit: int)
    ensures var n := |PagesRequested(top, timeRange, limit)|;
      && (forall j :: 0 <= j < n ==> |Pages(top, timeRange, j)| < limit)
      && (forall j :: 0 <= j < n - 1 ==> |Page(top, timeRange, j)| >= PageSize)
      && (n > 0 ==> |Page(top, timeRange, n - 1)| < PageSize || |Pages(top, timeRange, n)| >= limit)
  {
    PaginateFrom(top, timeRange, limit, 0);
  }

  /** When every page of the history is full, exactly `limit` tracks come back. */
  lemma RankedTracksFullPages(top: TopTracksSource, timeRange: string, limit: int)
    requires limit >= 0
    requires forall k: nat :: |Page(top, timeRange, k)| >= PageSize
    ensures |RankedTracks(top, timeRange, limit)| == limit
  {
    PaginateFrom(top, timeRange, limit, 0);
  }

  /**
   * A result shorter than `limit` is a partial fetch: the history ran out on a
   * short page, and the result is every track of every page requested.
   */
  lemma RankedTracksPartial(top: TopTracksSource, timeRange: string, limit: int)
    requires |RankedTracks(top, timeRange, limit)| < limit
    ensures var n := |PagesRequested(top, timeRange, limit)|;
      && n > 0
      && |Page(top, timeRange, n - 1)| < PageSize
      && RankedTracks(top, timeRange, limit) == Pages(top, timeRange, n)
  {
    PaginateFrom(top, timeRange, limit, 0);
  }

  /** get_top_tracks only adds one top-tracks request per page to the log. */
  lemma FetchTopTracksLog(top: TopTracksSource, a: Account, limit: int, timeRange: string)
    ensures var (a', _) := FetchTopTracks(top, a, limit, timeRange);
      && a'.playlists == a.playlists && a'.nextId == a.nextId
      && a'.log[..|a.log|] == a.log
      && var offsets := PagesRequested(top, timeRange, limit);
         |a'.log| == |a.log| + |offsets| &&
         forall i :: 0 <= i < |offsets| ==> a'.log[|a.log| + i] == TopTracksCall(i * PageSize, timeRange)
  {
    PaginateFrom(top, timeRange, limit, 0);
  }

  // ---------------------------------------------------------------------------
  // get_or_create_playlist
  // ---------------------------------------------------------------------------

  /** The position of the first playlist in the listing whose name is exactly `name`. */
  function FirstMatch(ps: seq<Playlist>, name: string): (r: Option<nat>)
    ensures r.Some? ==> r.value < |ps| && ps[r.value].name == name
    ensures r.Some? ==> forall j :: 0 <= j < r.value ==> ps[j].name != name
    ensures r.None? ==> forall j :: 0 <= j < |ps| ==> ps[j].name != name
  {
    if |ps| == 0 then None
    else if ps[0].name == name then Some(0)
    else match FirstMatch(ps[1..], name)
      case None => None
      case Some(i) => Some(i + 1)
  }

  /**
   * get_or_create_playlist: list the playlists; on the first exact name match,
   * re-apply visibility and description and return the listed entry; otherwise
   * create the playlist and return it.
   */
  function LocatePlaylist(a: Account, name: string, isPrivate: bool, description: string): (Account, Playlist) {
    var (a1, listing) := ListPlaylists(a);
    match FirstMatch(listing, name)
    case Some(i) => (ChangeDetails(a1, listing[i].id, !isPrivate, description), listing[i])
    case None => Create(a1, name, !isPrivate, description)
  }

  /** Where the located playlist sits in the listing once located: its match, or the end. */
  function LocatedIndex(ps: seq<Playlist>, name: string): nat {
    match FirstMatch(ps, name)
    case Some(i) => i
    case None => |ps|
  }

  /**
   * On a match, the returned playlist is the first one named `name`, as listed;
   * exactly one details update is issued for it, even when nothing changes, and
   * no other playlist is touched.
   */
  lemma LocateFound(a: Account, name: string, isPrivate: bool, description: string)
    requires Valid(a)
    requires FirstMatch(a.playlists, name).Some?
    ensures var i := FirstMatch(a.playlists, name).value;
      var (a', p) := LocatePlaylist(a, name, isPrivate, description);
      && p == a.playlists[i]
      && a'.playlists == a.playlists[i := p.(public := !isPrivate, description := description)]
      && a'.nextId == a.nextId
      && a'.log == a.log + [ListPlaylistsCall, ChangeDetailsCall(p.id, !isPrivate, description)]
  {
  }

  /**
   * Without a match, exactly one playlist is created, with the given name,
   * visibility and description and no tracks, and returned; the listed ones
   * are kept as they were.
   */
  lemma LocateMissing(a: Account, name: string, isPrivate: bool, description: string)
    requires FirstMatch(a.playlists, name).None?
    ensures var (a', p) := LocatePlaylist(a, name, isPrivate, description);
      && p == Playlist(a.nextId, name, !isPrivate, description, [])
      && a'.playlists == a.playlists + [p]
      && a'.log == a.log + [ListPlaylistsCall, CreateCall(name, !isPrivate, description)]
  {
  }

  /** After locating, the returned playlist's id belongs to the entry at LocatedIndex, which is named `name`. */
  lemma LocateResult(a: Account, name: string, isPrivate: bool, description: string)
    requires Valid(a)
    ensures var (a', p) := LocatePlaylist(a, name, isPrivate, description);
      var k := LocatedIndex(a.playlists, name);
      && Valid(a')
      && k < |a'.playlists|
      && a'.playlists[k].id == p.id
      && a'.playlists[k].name == name
      && a'.playlists[k].public == !isPrivate
      && a'.playlists[k].description == description
      && a'.playlists[k].tracks == (if k < |a.playlists| then a.playlists[k].tracks else [])
      && |a'.playlists| == (if k < |a.playlists| then |a.playlists| else |a.playlists| + 1)
      && (forall j :: 0 <= j < |a.playlists| && j != k ==> a'.playlists[j] == a.playlists[j])
  {
    if FirstMatch(a.playlists, name).Some? {
      LocateFound(a, name, isPrivate, description);
    } else {
      LocateMissing(a, name, isPrivate, description);
    }
  }

  // ---------------------------------------------------------------------------
  // update_playlist
  // ---------------------------------------------------------------------------

  /** The fixed map from a time range to the label its playlist carries. */
  const TimeRangeNames: map<string, string> :=
    map["short_term" := "Last 4 Weeks", "medium_term" := "Last 6 Months", "long_term" := "All Time"]

  /** The failure a refresh can end in: the lookup of an unknown time range (Python's KeyError). */
  datatype Error = UnknownTimeRange(timeRange: string)

  function PlaylistName(trackLimit: int, rangeName: string): string {
    "Top " + Format.IntToDecimal(trackLimit) + " Songs - " + rangeName
  }

  function PlaylistDescription(trackLimit: int, rangeName: string): string {
    "This playlist contains my top " + Format.IntToDecimal(trackLimit) + " tracks from "
    + Format.Lower(rangeName)
    + DescriptionTail
  }

  /** The fixed sentence that ends every description. */
  const DescriptionTail: string :=
    ". It uses the Spotify API and Github Actions to update daily to reflect my listening trends."

  /** The URIs of the tracks, in rank order. */
  function Uris(tracks: seq<Track>): seq<Uri>
  {
    seq(|tracks|, i requires 0 <= i < |tracks| => tracks[i].uri)
  }

  /** Taking URIs distributes over concatenation: the URIs of two runs of tracks, one after the other. */
  lemma UrisAppend(s: seq<Track>, t: seq<Track>)
    ensures Uris(s + t) == Uris(s) + Uris(t)
  {
    forall i | 0 <= i < |s + t|
      ensures Uris(s + t)[i] == (Uris(s) + Uris(t))[i]
    {
      if i < |s| {
        assert (s + t)[i] == s[i];
      } else {
        assert (s + t)[i] == t[i - |s|];
      }
    }
  }

  /** Taking URIs keeps prefixes: the URIs of a prefix are a prefix of the URIs, one per track. */
  lemma UrisPrefix(s: seq<Track>, t: seq<Track>)
    requires s <= t
    ensures |Uris(s)| == |s|
    ensures Uris(s) <= Uris(t)
  {
    assert t == s + t[|s|..];
    UrisAppend(s, t[|s|..]);
  }

  /**
   * The URIs a refresh writes are, in order, the first URIs of the pages it
   * requested, concatenated in request order: one URI per ranked track.
   */
  lemma RefreshedUrisFromPages(top: TopTracksSource, timeRange: string, trackLimit: int)
    ensures var ranked := RankedTracks(top, timeRange, trackLimit);
      && |Uris(ranked)| == |ranked|
      && Uris(ranked) <= Uris(Pages(top, timeRange, |PagesRequested(top, timeRange, trackLimit)|))
  {
    RankedTracksArePrefix(top, timeRange, trackLimit);
    UrisPrefix(RankedTracks(top, timeRange, trackLimit),
               Pages(top, timeRange, |PagesRequested(top, timeRange, trackLimit)|));
  }

  /** The labels of the three known time ranges. */
  lemma Labels()
    ensures TimeRangeNames["short_term"] == "Last 4 Weeks"
    ensures TimeRangeNames["medium_term"] == "Last 6 Months"
    ensures TimeRangeNames["long_term"] == "All Time"
  {
  }

  /** The labels as they appear, lower-cased, in the description. */
  lemma LowerLabels()
    ensures Format.Lower("Last 4 Weeks") == "last 4 weeks"
    ensures Format.Lower("Last 6 Months") == "last 6 months"
    ensures Format.Lower("All Time") == "all time"
  {
  }

  /**
   * update_playlist once the name and description are built: fetch the ranked
   * tracks, locate the playlist, empty it, then add the ranked URIs.
   */
  function RefreshWindow(top: TopTracksSource, a: Account, timeRange: string, trackLimit: int, isPrivate: bool,
                         name: string, description: string): Account
  {
    var (a1, tracks) := FetchTopTracks(top, a, trackLimit, timeRange);
    var (a2, p) := LocatePlaylist(a1, name, isPrivate, description);
    var a3 := ReplaceItems(a2, p.id, []);
    AddItems(a3, p.id, Uris(tracks))
  }

  /**
   * update_playlist: look up the label, failing before any request on an
   * unknown time range, build the name and description from it, then refresh.
   */
  function Refresh(top: TopTracksSource, a: Account, timeRange: string, trackLimit: int, isPrivate: bool)
    : Result<Account, Error>
  {
    if timeRange !in TimeRangeNames then Err(UnknownTimeRange(timeRange))
    else
      var rangeName := TimeRangeNames[timeRange];
      Ok(RefreshWindow(top, a, timeRange, trackLimit, isPrivate,
                       PlaylistName(trackLimit, rangeName), PlaylistDescription(trackLimit, rangeName)))
  }

  /** A refresh fails exactly on a time range outside the map, and then with that range. */
  lemma RefreshFailsOnlyOnUnknownRange(top: TopTracksSource, a: Account, timeRange: string, trackLimit: int, isPrivate: bool)
    ensures Refresh(top, a, timeRange, trackLimit, isPrivate).Err? <==> timeRange !in TimeRangeNames
    ensures Refresh(top, a, timeRange, trackLimit, isPrivate).Err? ==>
      Refresh(top, a, timeRange, trackLimit, isPrivate).error == UnknownTimeRange(timeRange)
  {
  }

  /**
   * After a refresh, the located playlist (the first one named `name`, or the
   * one created at the end of the listing) carries that name, the requested
   * visibility and description, and exactly the ranked URIs in rank order, at
   * most `trackLimit` of them: none of the tracks it held before is kept.
   * Every other playlist is as it was.
   */
  lemma RefreshWindowContents(top: TopTracksSource, a: Account, timeRange: string, trackLimit: int, isPrivate: bool,
                              name: string, description: string)
    requires Valid(a)
    ensures var a' := RefreshWindow(top, a, timeRange, trackLimit, isPrivate, name, description);
      var k := LocatedIndex(a.playlists, name);
      && Valid(a')
      && k < |a'.playlists|
      && a'.playlists[k].name == name
      && a'.playlists[k].public == !isPrivate
      && a'.playlists[k].description == description
      && a'.playlists[k].tracks == Uris(RankedTracks(top, timeRange, trackLimit))
      && |a'.playlists[k].tracks| <= (if trackLimit < 0 then 0 else trackLimit)
      && |a'.playlists| == (if k < |a.playlists| then |a.playlists| else |a.playlists| + 1)
      && (forall j :: 0 <= j < |a.playlists| && j != k ==> a'.playlists[j] == a.playlists[j])
  {
    var (a1, tracks) := FetchTopTracks(top, a, trackLimit, timeRange);
    assert a1.playlists == a.playlists && a1.nextId == a.nextId;
    var (a2, p) := LocatePlaylist(a1, name, isPrivate, description);
    LocateResult(a1, name, isPrivate, description);
    ReplaceThenAdd(a2, p.id, Uris(tracks));
    RankedTracksAtMostLimit(top, timeRange, trackLimit);
  }

  /** After a refresh, the refreshed playlist is the first one the listing shows under its name. */
  lemma RefreshWindowLocatedFirst(top: TopTracksSource, a: Account, timeRange: string, trackLimit: int, isPrivate: bool,
                                  name: string, description: string)
    requires Valid(a)
    ensures var a' := RefreshWindow(top, a, timeRange, trackLimit, isPrivate, name, description);
      FirstMatch(a'.playlists, name) == Some(LocatedIndex(a.playlists, name))
  {
    RefreshWindowContents(top, a, timeRange, trackLimit, isPrivate, name, description);
  }

  /** RefreshWindowContents and RefreshWindowLocatedFirst, for the name and description of a known time range. */
  lemma RefreshContents(top: TopTracksSource, a: Account, timeRange: string, trackLimit: int, isPrivate: bool)
    requires Valid(a)
    requires timeRange in TimeRangeNames
    ensures Refresh(top, a, timeRange, trackLimit, isPrivate).Ok?
    ensures var a' := Refresh(top, a, timeRange, trackLimit, isPrivate).value;
      var rangeName := TimeRangeNames[timeRange];
      var name := PlaylistName(trackLimit, rangeName);
      var k := LocatedIndex(a.playlists, name);
      && Valid(a')
      && k < |a'.playlists|
      && FirstMatch(a'.playlists, name) == Some(k)
      && a'.playlists[k].public == !isPrivate
      && a'.playlists[k].description == PlaylistDescription(trackLimit, rangeName)
      && a'.playlists[k].tracks == Uris(RankedTracks(top, timeRange, trackLimit))
      && |a'.playlists| == (if k < |a.playlists| then |a.playlists| else |a.playlists| + 1)
      && (forall j :: 0 <= j < |a.playlists| && j != k ==> a'.playlists[j] == a.playlists[j])
  {
    var rangeName := TimeRangeNames[timeRange];
    var name := PlaylistName(trackLimit, rangeName);
    var description := PlaylistDescription(trackLimit, rangeName);
    RefreshWindowContents(top, a, timeRange, trackLimit, isPrivate, name, description);
    RefreshWindowLocatedFirst(top, a, timeRange, trackLimit, isPrivate, name, description);
  }

  /** FirstMatch depends only on which positions carry the name. */
  lemma FirstMatchSameNames(ps: seq<Playlist>, qs: seq<Playlist>, name: string)
    requires forall j :: 0 <= j < |ps| && j < |qs| ==> (ps[j].name == name <==> qs[j].name == name)
    requires forall j :: |qs| <= j < |ps| ==> ps[j].name != name
    requires forall j :: |ps| <= j < |qs| ==> qs[j].name != name
    ensures FirstMatch(ps, name) == FirstMatch(qs, name)
  {
  }

  /** Whether the first playlist named for the window holds the window's ranked tracks, as refreshed. */
  ghost predicate WindowRefreshed(top: TopTracksSource, a: Account, timeRange: string, trackLimit: int, isPrivate: bool)
    requires timeRange in TimeRangeNames
  {
    var rangeName := TimeRangeNames[timeRange];
    var found := FirstMatch(a.playlists, PlaylistName(trackLimit, rangeName));
    && found.Some?
    && a.playlists[found.value].tracks == Uris(RankedTracks(top, timeRange, trackLimit))
    && a.playlists[found.value].public == !isPrivate
    && a.playlists[found.value].description == PlaylistDescription(trackLimit, rangeName)
  }

  /** A refresh under one name leaves the first playlist of any other name where and as it was. */
  lemma RefreshWindowKeepsOtherName(top: TopTracksSource, a: Account, timeRange: string, trackLimit: int, isPrivate: bool,
                                    name: string, description: string, other: string)
    requires Valid(a)
    requires other != name
    ensures var a' := RefreshWindow(top, a, timeRange, trackLimit, isPrivate, name, description);
      var found := FirstMatch(a.playlists, other);
      && FirstMatch(a'.playlists, other) == found
      && (found.Some? ==> a'.playlists[found.value] == a.playlists[found.value])
  {
    var a' := RefreshWindow(top, a, timeRange, trackLimit, isPrivate, name, description);
    RefreshWindowContents(top, a, timeRange, trackLimit, isPrivate, name, description);
    FirstMatchSameNames(a.playlists, a'.playlists, other);
  }

  /** A refresh of one window leaves another window's playlist as it found it. */
  lemma RefreshKeepsOtherWindow(top: TopTracksSource, a: Account, timeRange: string, other: string,
                                trackLimit: int, isPrivate: bool)
    requires Valid(a)
    requires timeRange in TimeRangeNames && other in TimeRangeNames && timeRange != other
    requires WindowRefreshed(top, a, other, trackLimit, isPrivate)
    ensures WindowRefreshed(top, Refresh(top, a, timeRange, trackLimit, isPrivate).value, other, trackLimit, isPrivate)
  {
    var rangeName := TimeRangeNames[timeRange];
    var name := PlaylistName(trackLimit, rangeName);
    var otherName := PlaylistName(trackLimit, TimeRangeNames[other]);
    if name == otherName {
      PlaylistNameInjective(trackLimit, rangeName, trackLimit, TimeRangeNames[other]);
    }
    RefreshWindowKeepsOtherName(top, a, timeRange, trackLimit, isPrivate,
                                name, PlaylistDescription(trackLimit, rangeName), otherName);
  }

  /** A refresh of a known window leaves it refreshed and keeps ids valid. */
  lemma RefreshEstablishesWindow(top: TopTracksSource, a: Account, timeRange: string, trackLimit: int, isPrivate: bool)
    requires Valid(a)
    requires timeRange in TimeRangeNames
    ensures Refresh(top, a, timeRange, trackLimit, isPrivate).Ok?
    ensures Valid(Refresh(top, a, timeRange, trackLimit, isPrivate).value)
    ensures WindowRefreshed(top, Refresh(top, a, timeRange, trackLimit, isPrivate).value, timeRange, trackLimit, isPrivate)
  {
    RefreshContents(top, a, timeRange, trackLimit, isPrivate);
  }

  /**
   * After main, for each of the three windows, the first playlist named for it
   * holds that window's 100 ranked tracks and is public: a later window never
   * overwrites an earlier one's playlist.
   */
  lemma MainRefreshesEveryWindow(top: TopTracksSource, a: Account)
    requires Valid(a)
    ensures RunAll(top, a, MainTimeRanges, MainTrackLimit, MainIsPrivate).Completed?
    ensures var a' := RunAll(top, a, MainTimeRanges, MainTrackLimit, MainIsPrivate).account;
      && Valid(a')
      && WindowRefreshed(top, a', "short_term", MainTrackLimit, MainIsPrivate)
      && WindowRefreshed(top, a', "medium_term", MainTrackLimit, MainIsPrivate)
      && WindowRefreshed(top, a', "long_term", MainTrackLimit, MainIsPrivate)
  {
    MainRunsInOrder(top, a);
    RefreshEstablishesWindow(top, a, "short_term", MainTrackLimit, MainIsPrivate);
    var a1 := Refresh(top, a, "short_term", MainTrackLimit, MainIsPrivate).value;
    RefreshEstablishesWindow(top, a1, "medium_term", MainTrackLimit, MainIsPrivate);
    RefreshKeepsOtherWindow(top, a1, "medium_term", "short_term", MainTrackLimit, MainIsPrivate);
    var a2 := Refresh(top, a1, "medium_term", MainTrackLimit, MainIsPrivate).value;
    RefreshEstablishesWindow(top, a2, "long_term", MainTrackLimit, MainIsPrivate);
    RefreshKeepsOtherWindow(top, a2, "long_term", "short_term", MainTrackLimit, MainIsPrivate);
    RefreshKeepsOtherWindow(top, a2, "long_term", "medium_term", MainTrackLimit, MainIsPrivate);
  }

  /** The requests of a refresh, in the order the service receives them. */
  lemma RefreshLog(top: TopTracksSource, a: Account, timeRange: string, trackLimit: int, isPrivate: bool)
    requires timeRange in TimeRangeNames
    ensures var a' := Refresh(top, a, timeRange, trackLimit, isPrivate).value;
      var rangeName := TimeRangeNames[timeRange];
      var name := PlaylistName(trackLimit, rangeName);
      var description := PlaylistDescription(trackLimit, rangeName);
      var found := FirstMatch(a.playlists, name);
      var id := if found.Some? then a.playlists[found.value].id else a.nextId;
      a'.log == a.log + Requests(PagesRequested(top, timeRange, trackLimit), timeRange)
        + [ListPlaylistsCall,
           if found.Some? then ChangeDetailsCall(id, !isPrivate, description)
           else CreateCall(name, !isPrivate, description),
           ReplaceItemsCall(id, []),
           AddItemsCall(id, Uris(RankedTracks(top, timeRange, trackLimit)))]
  {
  }

  /** In a word without spaces followed by a space, the first space is the one after the word. */
  lemma FirstSpace(w: string, rest: string)
    requires forall i :: 0 <= i < |w| ==> w[i] != ' '
    requires |rest| > 0 && rest[0] == ' '
    ensures (w + rest)[|w|] == ' '
    ensures forall i :: 0 <= i < |w| ==> (w + rest)[i] != ' '
  {
  }

  /**
   * A text `p + w + q + l`, where the word `w` has no space and `q` starts
   * with one, determines `w` and `l`.
   */
  lemma SplitAtSpace(p: string, w1: string, l1: string, w2: string, l2: string, q: string)
    requires forall i :: 0 <= i < |w1| ==> w1[i] != ' '
    requires forall i :: 0 <= i < |w2| ==> w2[i] != ' '
    requires |q| > 0 && q[0] == ' '
    requires p + w1 + q + l1 == p + w2 + q + l2
    ensures w1 == w2 && l1 == l2
  {
    var s := p + w1 + q + l1;
    var t1, t2 := w1 + (q + l1), w2 + (q + l2);
    assert s[|p|..] == t1 == t2;
    FirstSpace(w1, q + l1);
    FirstSpace(w2, q + l2);
    assert |w1| == |w2|;
    assert w1 == t1[..|w1|] == w2;
    assert l1 == t1[|w1| + |q|..] == l2;
  }

  /** Distinct track limits or distinct labels give distinct playlist names. */
  lemma PlaylistNameInjective(m: int, rangeName1: string, n: int, rangeName2: string)
    requires PlaylistName(m, rangeName1) == PlaylistName(n, rangeName2)
    ensures m == n && rangeName1 == rangeName2
  {
    SplitAtSpace("Top ", Format.IntToDecimal(m), rangeName1, Format.IntToDecimal(n), rangeName2, " Songs - ");
    Format.IntToDecimalInjective(m, n);
  }

  // ---------------------------------------------------------------------------
  // main
  // ---------------------------------------------------------------------------

  /** The windows main refreshes, in order, with its track limit and visibility. */
  const MainTimeRanges: seq<string> := ["short_term", "medium_term", "long_term"]
  const MainTrackLimit: int := 100
  const MainIsPrivate: bool := false

  /** main's track limit renders as "100". */
  lemma MainTrackLimitRendering()
    ensures Format.IntToDecimal(MainTrackLimit) == "100"
  {
    assert Format.NatToDecimal(1) == "1";
    assert Format.NatToDecimal(10) == "10";
  }

  /** The name and description of the playlist main keeps for short_term. */
  lemma ShortTermTitles()
    ensures PlaylistName(MainTrackLimit, TimeRangeNames["short_term"]) == "Top 100 Songs - Last 4 Weeks"
    ensures PlaylistDescription(MainTrackLimit, TimeRangeNames["short_term"])
      == "This playlist contains my top " + "100" + " tracks from " + "last 4 weeks" + DescriptionTail
  {
    Labels();
    MainTrackLimitRendering();
    LowerLabels();
  }

  /** The name and description of the playlist main keeps for medium_term. */
  lemma MediumTermTitles()
    ensures PlaylistName(MainTrackLimit, TimeRangeNames["medium_term"]) == "Top 100 Songs - Last 6 Months"
    ensures PlaylistDescription(MainTrackLimit, TimeRangeNames["medium_term"])
      == "This playlist contains my top " + "100" + " tracks from " + "last 6 months" + DescriptionTail
  {
    Labels();
    MainTrackLimitRendering();
    LowerLabels();
  }

  /** The name and description of the playlist main keeps for long_term. */
  lemma LongTermTitles()
    ensures PlaylistName(MainTrackLimit, TimeRangeNames["long_term"]) == "Top 100 Songs - All Time"
    ensures PlaylistDescription(MainTrackLimit, TimeRangeNames["long_term"])
      == "This playlist contains my top " + "100" + " tracks from " + "all time" + DescriptionTail
  {
    Labels();
    MainTrackLimitRendering();
    LowerLabels();
  }

  /** How a run over several windows ends: all refreshed, or stopped by a failure. */
  datatype Run = Completed(account: Account) | Stopped(account: Account, error: Error)

  /** The windows refreshed one after another; the first failure ends the run. */
  function RunAll(top: TopTracksSource, a: Account, timeRanges: seq<string>, trackLimit: int, isPrivate: bool): Run
    decreases |timeRanges|
  {
    if |timeRanges| == 0 then Completed(a)
    else match Refresh(top, a, timeRanges[0], trackLimit, isPrivate)
      case Err(e) => Stopped(a, e)
      case Ok(a') => RunAll(top, a', timeRanges[1..], trackLimit, isPrivate)
  }

  /** One step of a run, from the i-th range on. */
  lemma RunAllStep(top: TopTracksSource, a: Account, timeRanges: seq<string>, i: nat, trackLimit: int, isPrivate: bool)
    requires i < |timeRanges|
    ensures RunAll(top, a, timeRanges[i..], trackLimit, isPrivate)
         == match Refresh(top, a, timeRanges[i], trackLimit, isPrivate)
            case Err(e) => Stopped(a, e)
            case Ok(a') => RunAll(top, a', timeRanges[i + 1..], trackLimit, isPrivate)
  {
    assert timeRanges[i..][1..] == timeRanges[i + 1..];
  }

  /**
   * A run stops at the first unknown time range: the windows before it are
   * refreshed, it fails, and no later window is attempted.
   */
  lemma {:induction false} RunAllStopsAtFirstFailure(top: TopTracksSource, a: Account, timeRanges: seq<string>,
                                                     trackLimit: int, isPrivate: bool, i: nat)
    requires i < |timeRanges|
    requires forall j :: 0 <= j < i ==> timeRanges[j] in TimeRangeNames
    requires timeRanges[i] !in TimeRangeNames
    ensures RunAll(top, a, timeRanges[..i], trackLimit, isPrivate).Completed?
    ensures RunAll(top, a, timeRanges, trackLimit, isPrivate)
         == Stopped(RunAll(top, a, timeRanges[..i], trackLimit, isPrivate).account, UnknownTimeRange(timeRanges[i]))
    decreases i
  {
    if i > 0 {
      var a' := Refresh(top, a, timeRanges[0], trackLimit, isPrivate).value;
      assert timeRanges[..i][1..] == timeRanges[1..][..i - 1];
      RunAllStopsAtFirstFailure(top, a', timeRanges[1..], trackLimit, isPrivate, i - 1);
    }
  }

  /** main refreshes the last 4 weeks, then the last 6 months, then all time, and always completes. */
  lemma MainRunsInOrder(top: TopTracksSource, a: Account)
    ensures var a1 := Refresh(top, a, "short_term", MainTrackLimit, MainIsPrivate);
      && a1.Ok?
      && var a2 := Refresh(top, a1.value, "medium_term", MainTrackLimit, MainIsPrivate);
      && a2.Ok?
      && var a3 := Refresh(top, a2.value, "long_term", MainTrackLimit, MainIsPrivate);
      && a3.Ok?
      && RunAll(top, a, MainTimeRanges, MainTrackLimit, MainIsPrivate) == Completed(a3.value)
  {
  }
}

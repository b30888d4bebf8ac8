/**
 * An in-memory stand-in for the music service the refresher talks to.
 *
 * The account holds the user's playlist listing and a log of the calls issued
 * against it; the user's ranked listening history is a fixed function from
 * (offset, time range) to one page of tracks. Each call the refresher issues is
 * given here as a pure function on the account and as a method of Client that
 * applies it.
 */
module Service {

  type Uri = string

  /** A track as returned by the top-tracks endpoint; only its URI is used. */
  datatype Track = Track(uri: Uri)

  /** The ranked listening history: the page returned for an offset and a time range. */
  type TopTracksSource = (nat, string) -> seq<Track>

  datatype Playlist = Playlist(
    id: nat,
    name: string,
    public: bool,
    description: string,
    tracks: seq<Uri>)

  /** The calls the refresher issues, in the order the service receives them. */
  datatype Call =
    | TopTracksCall(offset: nat, timeRange: string)
    | ListPlaylistsCall
    | ChangeDetailsCall(id: nat, public: bool, description: string)
    | CreateCall(name: string, public: bool, description: string)
    | ReplaceItemsCall(id: nat, uris: seq<Uri>)
    | AddItemsCall(id: nat, uris: seq<Uri>)

  /** The service-side state: the listing, the next unused playlist id, and the call log. */
  datatype Account = Account(playlists: seq<Playlist>, nextId: nat, log: seq<Call>)

  /** Playlist ids are distinct and all below the next id the service will hand out. */
  ghost predicate Valid(a: Account) {
    (forall i :: 0 <= i < |a.playlists| ==> a.playlists[i].id < a.nextId) &&
    (forall i, j :: 0 <= i < j < |a.playlists| ==> a.playlists[i].id != a.playlists[j].id)
  }

  /** Replaces the playlist with the given id by f of it; the rest of the listing is kept. */
  function Edit(ps: seq<Playlist>, id: nat, f: Playlist -> Playlist): seq<Playlist>
  {
    seq(|ps|, i requires 0 <= i < |ps| => if ps[i].id == id then f(ps[i]) else ps[i])
  }

  /** `current_user_top_tracks(limit=50, offset, time_range)`: one page of the history. */
  function TopTracks(top: TopTracksSource, a: Account, offset: nat, timeRange: string): (Account, seq<Track>)
  {
    (a.(log := a.log + [TopTracksCall(offset, timeRange)]), top(offset, timeRange))
  }

  /** `user_playlists(user)`: the listing as it stands. */
  function ListPlaylists(a: Account): (Account, seq<Playlist>)
  {
    (a.(log := a.log + [ListPlaylistsCall]), a.playlists)
  }

  /** `user_playlist_change_details(user, id, public, description)`: sets two fields of one playlist. */
  function ChangeDetails(a: Account, id: nat, public: bool, description: string): Account
  {
    Account(Edit(a.playlists, id, (p: Playlist) => p.(public := public, description := description)),
            a.nextId, a.log + [ChangeDetailsCall(id, public, description)])
  }

  /** `user_playlist_create(user, name, public, description)`: a new, empty playlist under a fresh id. */
  function Create(a: Account, name: string, public: bool, description: string): (Account, Playlist)
  {
    var p := Playlist(a.nextId, name, public, description, []);
    (Account(a.playlists + [p], a.nextId + 1, a.log + [CreateCall(name, public, description)]), p)
  }

  /** `playlist_replace_items(id, uris)`: the playlist's tracks become exactly `uris`. */
  function ReplaceItems(a: Account, id: nat, uris: seq<Uri>): Account
  {
    Account(Edit(a.playlists, id, (p: Playlist) => p.(tracks := uris)), a.nextId, a.log + [ReplaceItemsCall(id, uris)])
  }

  /** `playlist_add_items(id, uris)`: `uris` are appended to the playlist's tracks. */
  function AddItems(a: Account, id: nat, uris: seq<Uri>): Account
  {
    Account(Edit(a.playlists, id, (p: Playlist) => p.(tracks := p.tracks + uris)), a.nextId, a.log + [AddItemsCall(id, uris)])
  }

  /** An edit that keeps every playlist's id keeps the ids of the listing, position by position. */
  lemma {:induction false} EditKeepsIds(ps: seq<Playlist>, id: nat, f: Playlist -> Playlist)
    requires forall p :: f(p).id == p.id
    ensures |Edit(ps, id, f)| == |ps|
    ensures forall i :: 0 <= i < |ps| ==> Edit(ps, id, f)[i].id == ps[i].id
  {
    forall i | 0 <= i < |ps|
      ensures Edit(ps, id, f)[i].id == ps[i].id
    {
      if ps[i].id == id {
        assert f(ps[i]).id == ps[i].id;
      }
    }
  }

  /** Changing a playlist's details keeps ids distinct and fresh. */
  lemma ChangeDetailsKeepsValid(a: Account, id: nat, public: bool, description: string)
    requires Valid(a)
    ensures Valid(ChangeDetails(a, id, public, description))
  {
    EditKeepsIds(a.playlists, id, (p: Playlist) => p.(public := public, description := description));
  }

  /** Replacing a playlist's tracks keeps ids distinct and fresh. */
  lemma ReplaceItemsKeepsValid(a: Account, id: nat, uris: seq<Uri>)
    requires Valid(a)
    ensures Valid(ReplaceItems(a, id, uris))
  {
    EditKeepsIds(a.playlists, id, (p: Playlist) => p.(tracks := uris));
  }

  /** Adding tracks to a playlist keeps ids distinct and fresh. */
  lemma AddItemsKeepsValid(a: Account, id: nat, uris: seq<Uri>)
    requires Valid(a)
    ensures Valid(AddItems(a, id, uris))
  {
    EditKeepsIds(a.playlists, id, (p: Playlist) => p.(tracks := p.tracks + uris));
  }

  /** Creating a playlist keeps ids distinct and fresh. */
  lemma CreateKeepsValid(a: Account, name: string, public: bool, description: string)
    requires Valid(a)
    ensures Valid(Create(a, name, public, description).0)
  {
  }

  /**
   * Emptying a playlist and then adding `uris` leaves it holding exactly
   * `uris`, whatever it held before; no other playlist and no other field changes.
   */
  lemma ReplaceThenAdd(a: Account, id: nat, uris: seq<Uri>)
    ensures var a' := AddItems(ReplaceItems(a, id, []), id, uris);
      && a'.nextId == a.nextId
      && |a'.playlists| == |a.playlists|
      && (forall i :: 0 <= i < |a.playlists| ==>
            a'.playlists[i] == if a.playlists[i].id == id then a.playlists[i].(tracks := uris) else a.playlists[i])
      && (Valid(a) ==> Valid(a'))
  {
    var a1 := ReplaceItems(a, id, []);
    var a' := AddItems(a1, id, uris);
    forall i | 0 <= i < |a.playlists|
      ensures a'.playlists[i] == if a.playlists[i].id == id then a.playlists[i].(tracks := uris) else a.playlists[i]
    {
      assert a1.playlists[i].id == a.playlists[i].id;
    }
  }

  /** The client object: the ranked history it reads and the account state its calls change. */
  class Client {
    const top: TopTracksSource
    var playlists: seq<Playlist>
    var nextId: nat
    var log: seq<Call>

    function State(): Account
      reads this
    {
      Account(playlists, nextId, log)
    }

    constructor (top: TopTracksSource, a: Account)
      ensures this.top == top && State() == a
    {
      this.top := top;
      playlists, nextId, log := a.playlists, a.nextId, a.log;
    }

    method CurrentUserTopTracks(offset: nat, timeRange: string) returns (page: seq<Track>)
      modifies this`log
      ensures (State(), page) == TopTracks(top, old(State()), offset, timeRange)
    {
      page := top(offset, timeRange);
      log := log + [TopTracksCall(offset, timeRange)];
    }

    method UserPlaylists() returns (listing: seq<Playlist>)
      modifies this`log
      ensures (State(), listing) == ListPlaylists(old(State()))
    {
      listing := playlists;
      log := log + [ListPlaylistsCall];
    }

    method UserPlaylistChangeDetails(id: nat, public: bool, description: string)
      modifies this`playlists, this`log
      ensures State() == ChangeDetails(old(State()), id, public, description)
    {
      playlists := Edit(playlists, id, (p: Playlist) => p.(public := public, description := description));
      log := log + [ChangeDetailsCall(id, public, description)];
    }

    method UserPlaylistCreate(name: string, public: bool, description: string) returns (p: Playlist)
      modifies this
      ensures (State(), p) == Create(old(State()), name, public, description)
    {
      p := Playlist(nextId, name, public, description, []);
      playlists := playlists + [p];
      nextId := nextId + 1;
      log := log + [CreateCall(name, public, description)];
    }

    method PlaylistReplaceItems(id: nat, uris: seq<Uri>)
      modifies this`playlists, this`log
      ensures State() == ReplaceItems(old(State()), id, uris)
    {
      playlists := Edit(playlists, id, (p: Playlist) => p.(tracks := uris));
      log := log + [ReplaceItemsCall(id, uris)];
    }

    method PlaylistAddItems(id: nat, uris: seq<Uri>)
      modifies this`playlists, this`log
      ensures State() == AddItems(old(State()), id, uris)
    {
      playlists := Edit(playlists, id, (p: Playlist) => p.(tracks := p.tracks + uris));
      log := log + [AddItemsCall(id, uris)];
    }
  }
}

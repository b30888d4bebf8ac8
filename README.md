# Top-tracks playlist refresher, modelled in Dafny

The refresher keeps three playlists of a music-streaming account in step with
the listener's most-played tracks over three time ranges: `short_term` (last 4
weeks), `medium_term` (last 6 months) and `long_term` (all time). For each
range it

1. builds the playlist name `Top {limit} Songs - {label}` and a description
   that embeds the lower-cased label, from a fixed three-entry map;
2. fetches the ranked tracks in pages of 50 from offset 0 until a page comes
   back short or `limit` tracks are held, and cuts the result to `limit`;
3. finds the first playlist of the user's listing whose name equals the built
   name exactly, re-applies visibility and description to it, or creates it;
4. empties that playlist and adds the ranked track URIs to it.

`main` runs this for the three ranges in that order with limit 100 and public
visibility; nothing catches a failure, so one stops the rest.

The music service is replaced by an in-memory model (`Service`): the account
holds the playlist listing, the next playlist id the service hands out, and a
log of every call issued. The listening history is a fixed function from
`(offset, time range)` to a page of tracks. Each service call is a pure function
on the account, and `Service.Client` is the object whose methods apply them.

Files:

- `wrappers.dfy`: `Option` and `Result`.
- `format.dfy`: how an f-string renders an int, with the parser that reads it back, and ASCII `str.lower()`.
- `service.dfy`: the service stand-in. It has the account, the call semantics and the `Client` class.
- `refresher.dfy`: what each function of `playlist.py` computes and does to the account, as functions, with the lemmas.
- `program.dfy`: the same functions as the program runs them, as loops and calls on a `Client`. Each method is proved equal to its `Refresher` function.

The code is simpler than a full reconciliation design would be, and the model follows the code:

- The fetch has no retry or backoff. A failing request is not caught.
- The playlist is not reconciled against its old contents. Nothing is retained, there is no sticky tail, and no diff is computed. The playlist is emptied with one replace call and refilled with one add call. So it ends up holding exactly the ranked URIs and never more than `limit` of them.
- `main` does not isolate the ranges from each other. The first failure ends the run.

## Model

| member | source | states |
|---|---|---|
| Service.TopTracks | playlist.py:46 | Definition of one `current_user_top_tracks` request: it returns the history's page for that offset and range and only logs the request. |
| Service.ListPlaylists | playlist.py:66 | Definition of `user_playlists`: it returns the listing as it stands and only logs the call. |
| Service.ChangeDetails | playlist.py:70-75 | Definition of `user_playlist_change_details`: the playlist with that id gets the given visibility and description. Its tracks, its name and every other playlist are kept. |
| Service.Create | playlist.py:77 | Definition of `user_playlist_create`: a new playlist with the name, visibility and description, no tracks and the next fresh id, added at the end of the listing. |
| Service.ReplaceItems | playlist.py:105 | Definition of `playlist_replace_items`: the playlist with that id holds exactly the given URIs afterwards. |
| Service.AddItems | playlist.py:109 | Definition of `playlist_add_items`: the given URIs are appended, in order, to the playlist with that id. |
| Service.ChangeDetailsKeepsValid | playlist.py:70-75 | Changing visibility and description keeps playlist ids distinct and below the next fresh id. |
| Service.CreateKeepsValid | playlist.py:77 | A newly created playlist gets an id that no other playlist has. |
| Service.ReplaceItemsKeepsValid | playlist.py:105 | Replacing a playlist's tracks keeps playlist ids distinct and below the next fresh id. |
| Service.AddItemsKeepsValid | playlist.py:109 | Adding tracks to a playlist keeps playlist ids distinct and below the next fresh id. |
| Service.ReplaceThenAdd | playlist.py:105-109 | Emptying a playlist and then adding the URIs leaves it holding exactly those URIs, whatever it held before. No other playlist changes, and ids stay distinct. |
| Service.Client.CurrentUserTopTracks | playlist.py:46 | The method returns the page `TopTracks` gives and leaves the account exactly as `TopTracks` does. |
| Service.Client.UserPlaylists | playlist.py:66 | The method returns the listing `ListPlaylists` gives and leaves the account exactly as `ListPlaylists` does. |
| Service.Client.UserPlaylistChangeDetails | playlist.py:70-75 | The new account is the one `ChangeDetails` gives. |
| Service.Client.UserPlaylistCreate | playlist.py:77 | The method returns the playlist `Create` gives, and the new account is the one `Create` gives. |
| Service.Client.PlaylistReplaceItems | playlist.py:105 | The new account is the one `ReplaceItems` gives. |
| Service.Client.PlaylistAddItems | playlist.py:109 | The new account is the one `AddItems` gives. |
| Refresher.Paginate | playlist.py:43-50 | Definition of the pagination loop from a given offset and accumulator. While fewer than `limit` tracks are held, it requests the page at the offset and appends it. It stops after a page of fewer than 50 tracks, and otherwise moves the offset on by 50. It gives the tracks held at the end and the offsets requested. |
| Refresher.SliceTo | playlist.py:51 | Definition of Python's `s[:stop]`, where a negative stop counts from the end. What the model relies on is stated by `RankedTracksAtMostLimit` and `RankedTracksArePrefix`. |
| Refresher.PagesRequested | playlist.py:43-50 | Definition: the offsets `get_top_tracks` requests, which is the loop run from offset 0 with nothing held. |
| Refresher.RankedTracks | playlist.py:29-51 | Definition: the tracks `get_top_tracks` returns, which is what the loop held at the end, cut to `limit`. |
| Refresher.FetchTopTracks | playlist.py:29-51 | Definition of `get_top_tracks` as a whole: the account with one top-tracks request logged per offset requested, and the ranked tracks. |
| Program.GetTopTracks | playlist.py:29-51 | The pagination loop returns `RankedTracks`. It appends to the log exactly one top-tracks request per offset of `PagesRequested`, in order, and changes nothing else. |
| Refresher.PaginateFrom | playlist.py:43-50 | After k full pages, the loop requests pages k, k+1, … at offsets `(k+i)*50`. It requests each one only while fewer than `limit` tracks are held. Every requested page but the last is full. It stops on a short page or once `limit` is reached. It then holds exactly the requested pages, concatenated in order. |
| Refresher.NoRequestWithoutLimit | playlist.py:45-51 | When `limit <= 0`, no page is requested and the result is empty. |
| Refresher.RankedTracksAtMostLimit | playlist.py:51 | The result never has more than `limit` tracks, and none when the limit is negative. |
| Refresher.RankedTracksArePrefix | playlist.py:43-51 | Pages are requested at offsets 0, 50, 100, … in increasing order. At least one is requested exactly when `limit > 0`. The result is a prefix of the requested pages, concatenated in request order. |
| Refresher.PaginationStops | playlist.py:45-50 | Pagination ends right after the first short page, or once `limit` tracks are held. Every earlier request was for a full page, made while short of `limit`. |
| Refresher.RankedTracksFullPages | playlist.py:45-51 | If every page of the history is full, the result has exactly `limit` tracks. |
| Refresher.RankedTracksPartial | playlist.py:45-51 | A result shorter than `limit` means the last requested page was short. The result is then every track of every requested page, with no error. |
| Refresher.FetchTopTracksLog | playlist.py:46 | Fetching changes no playlist. It only appends one `TopTracksCall(i*50, range)` per requested page, in order. |
| Refresher.FirstMatch | playlist.py:67-68 | The position found is the first one whose name equals `name` exactly. None is found only when no listed playlist has that name. |
| Refresher.LocatePlaylist | playlist.py:53-77 | Definition of `get_or_create_playlist`: list the playlists. On the first exact name match, update that playlist's visibility to `not is_private` and its description, and return the entry as listed. Otherwise create the playlist and return it. |
| Program.GetOrCreatePlaylist | playlist.py:53-77 | The loop over the listing has exactly the effect and result of `LocatePlaylist`. |
| Refresher.LocateFound | playlist.py:67-76 | On a match, the returned playlist is the first listed one with that name, as listed. Exactly one details update is issued, setting `public = not is_private` and the description, even when they already match. Nothing else changes. |
| Refresher.LocateMissing | playlist.py:77 | Without a match, exactly one playlist is created with the name, `public = not is_private`, the description and no tracks, and it is returned. The listed playlists are kept as they were. |
| Refresher.LocateResult | playlist.py:53-77 | Afterwards the entry at the located position has the returned id, the name, the visibility and the description. Ids stay distinct. All other entries are unchanged. |
| Format.IntToDecimal | playlist.py:95 | How an f-string renders an int: at least one character, a leading minus sign exactly for negatives, and otherwise only decimal digits. |
| Format.NatToDecimalRoundTrip | playlist.py:95 | The decimal digits of a natural number read back to that number. |
| Format.IntToDecimalRoundTrip | playlist.py:95 | The f-string rendering of an int, including a minus sign, reads back to that int. |
| Format.IntToDecimalInjective | playlist.py:95 | Distinct ints render differently. |
| Format.Lower | playlist.py:96 | Definition of `str.lower()` on ASCII: each of `A`–`Z` becomes its lower-case letter and every other character is kept. What it does to the three labels is stated by `Refresher.LowerLabels`. |
| Format.LowerIdempotent | playlist.py:96 | Lowering twice gives the same as lowering once, and a lowered string has no upper-case ASCII letter. |
| Refresher.PlaylistName | playlist.py:95 | Definition of the name `Top {track_limit} Songs - {label}`. |
| Refresher.PlaylistDescription | playlist.py:96 | Definition of the description: `This playlist contains my top {track_limit} tracks from {label lower-cased}`, then the fixed closing sentence. |
| Refresher.PlaylistNameInjective | playlist.py:95 | Two names `Top {n} Songs - {label}` are equal only if their limits and their labels are equal. |
| Refresher.Labels | playlist.py:90-94 | The map gives `Last 4 Weeks` for short_term, `Last 6 Months` for medium_term and `All Time` for long_term. |
| Refresher.LowerLabels | playlist.py:96 | The three labels lower-case to `last 4 weeks`, `last 6 months` and `all time`. |
| Refresher.MainTrackLimitRendering | playlist.py:123 | main's limit of 100 renders as `100`. |
| Refresher.ShortTermTitles | playlist.py:90-96 | With main's limit, short_term's playlist is named `Top 100 Songs - Last 4 Weeks`. Its description reads `This playlist contains my top 100 tracks from last 4 weeks`, then the closing sentence. |
| Refresher.MediumTermTitles | playlist.py:90-96 | With main's limit, medium_term's playlist is named `Top 100 Songs - Last 6 Months`. Its description reads `This playlist contains my top 100 tracks from last 6 months`, then the closing sentence. |
| Refresher.LongTermTitles | playlist.py:90-96 | With main's limit, long_term's playlist is named `Top 100 Songs - All Time`. Its description reads `This playlist contains my top 100 tracks from all time`, then the closing sentence. |
| Refresher.Uris | playlist.py:108 | Definition of the list comprehension that takes each track's URI, in rank order. Its properties are stated by `UrisAppend`, `UrisPrefix` and `RefreshedUrisFromPages`. |
| Refresher.UrisAppend | playlist.py:108 | The URIs of two runs of tracks, one after the other, are the URIs of the first run followed by those of the second. |
| Refresher.UrisPrefix | playlist.py:108 | There is one URI per track, and the URIs of a prefix of a track list are a prefix of that list's URIs. |
| Refresher.RefreshedUrisFromPages | playlist.py:99-108 | The URIs an update writes are the leading URIs of the requested pages, concatenated in request order, one per ranked track. |
| Refresher.RefreshWindow | playlist.py:99-109 | Definition of the body of `update_playlist` once the name and description are built: fetch the ranked tracks, locate the playlist, replace its items with the empty list, then add the ranked URIs. |
| Refresher.Refresh | playlist.py:80-109 | Definition of `update_playlist`. It looks the range up in the fixed map (`short_term` to `Last 4 Weeks`, `medium_term` to `Last 6 Months`, `long_term` to `All Time`, as in playlist.py:90-94). An unknown range fails before any request. Otherwise it builds the name and description from the label and runs `RefreshWindow`. |
| Program.UpdatePlaylist | playlist.py:80-109 | On an unknown range it returns the error and leaves the state as it was. Otherwise the new state is exactly what `Refresh` specifies. |
| Refresher.RefreshFailsOnlyOnUnknownRange | playlist.py:90-96 | `update_playlist` fails exactly when the time range is not one of the three map keys. It then fails with that key, before any request. |
| Refresher.RefreshWindowContents | playlist.py:99-109 | The located playlist ends up with exactly the ranked URIs in rank order, at most `limit` of them, and none of its old tracks. It carries the name, visibility and description. Every other playlist is unchanged. |
| Refresher.RefreshWindowLocatedFirst | playlist.py:102-109 | After the update, the refreshed playlist is the first one listed under its name. |
| Refresher.RefreshContents | playlist.py:90-109 | For a known range, the update succeeds. The playlist first listed under `Top {limit} Songs - {label}` then holds exactly the ranked URIs, with the requested visibility and the built description. Every other playlist is unchanged and ids stay distinct. |
| Refresher.RefreshLog | playlist.py:99-109 | The calls go in this order: the page requests, one listing, one details update or one create, one replace with the empty list, one add of the ranked URIs. |
| Refresher.RefreshWindowKeepsOtherName | playlist.py:102-109 | An update under one name does not move or change the first playlist of any other name. |
| Refresher.RefreshKeepsOtherWindow | playlist.py:90-109 | Updating one range keeps the refreshed playlist of another range as it was. |
| Refresher.RefreshEstablishesWindow | playlist.py:90-109 | After updating a known range, the first playlist named for it holds its ranked URIs, with the requested visibility and description. |
| Refresher.RunAll | playlist.py:127-129 | Definition of the loop in `main`: update each range in order, and stop at the first failure with that failure. |
| Refresher.RunAllStopsAtFirstFailure | playlist.py:127-129 | A run over several ranges refreshes the ranges before the first unknown one. It stops with that range's error and attempts none after it. |
| Refresher.MainRunsInOrder | playlist.py:123-129 | `main` updates short_term, then medium_term, then long_term, each with limit 100 and public visibility, and completes. |
| Refresher.MainRefreshesEveryWindow | playlist.py:118-129 | After `main`, each range's playlist is the first one listed under its name. Each holds that range's ranked tracks and is public. A later range never overwrites an earlier one's playlist. |
| Program.RefreshAll | playlist.py:118-129 | The loop over the three ranges has exactly the effect and outcome of `RunAll` on them. |

## Left out

- Environment loading, OAuth setup and client construction (playlist.py:1-27): configuration and a foreign library, with nothing to verify.
- `sp.me()` (playlist.py:65): the model has a single user, so the user id is implicit and the call is not modelled.
- HTTP failures of the service calls: every call of the stand-in succeeds. Python's KeyError on an unknown range is therefore the only failure. `main`'s fixed ranges never cause it, and `RunAllStopsAtFirstFailure` states how any failure would end the run.
- Server-side limits and paging of `user_playlists`: the one page that playlist.py:66 reads is modelled as the user's whole listing, so playlists beyond that page are not modelled. The service's cap on URIs per add request is not modelled either.
- Where the service lists a newly created playlist: the model appends it to the end of the listing.
- Ownership of listed playlists, and calls on an id that is not listed: the code never makes such a call. In the model it changes nothing.
- Format.Lower: models `str.lower()` on ASCII only, because the three labels it is applied to are ASCII.
- Track metadata other than the URI is not modelled.
- The page-size bound of the service (at most 50 items per page) is not assumed. Every property holds for pages of any length, with a page counted as full when it holds at least 50 items.
- Console output (playlist.py:111-116): logging only.

# Provider aggregator of the Encore music player, in Dafny

The music player collects songs, albums, artists and playlists from several
provider services. Its `ProviderAggregator` is the single coordinator between
those services and the app. This project models that coordinator as a Dafny
class that is updated in place:

- **The cache.** There is one map per entity kind, keyed by reference. Songs,
  albums, artists and playlists are objects, and an update rewrites the
  cached object's fields through its setters.
- **The reconciler.** `onSongUpdate`, `onAlbumUpdate`, `onArtistUpdate` and
  `onPlaylistAddedOrUpdated` decide whether an incoming record is new, newer
  or identical to the cached one. They update the cache accordingly.
  - A song that has just become loaded gets its album linked to its artist.
  - An album update links the album to the artist of each of its songs.
  - A changed playlist has its songs fetched.
- **Cache-first retrieval.** `retrieveSong`, `retrieveAlbum`, `retrieveArtist`
  and `retrievePlaylist` answer from the cache. On a miss they ask the
  provider and feed the answer through the reconciler. The song and album
  reconcilers and retrievers call each other. The model proves that this
  recursion ends, measured by the references the providers can still add to
  the cache.
- **Debounced notification.** `post*ForUpdate` appends to a pending list and
  re-arms a delayed flush. A flush hands every local callback its own copy
  of the pending list, all with the same contents, and then empties it.
- **The search merger.** A result for the cached query replaces the
  identifier. Each of its four reference lists is appended with the entries
  not yet present, in order. A result for another query, or the first one,
  replaces the cached search.
- **The rosetta-stone registry.**
  - Registering a provider maps each prefix it declares to that provider; a
    later registration wins.
  - It appends new prefixes to a duplicate-free list in first-seen order.
  - The preferred prefix is the first one.

Provider services are an oracle parameter, `Net`. For each provider identity
it says whether the binder is missing, dead (every call throws) or live, and
what a live binder answers. Work the source hands to its executor or its
`Handler` runs at once, in program order. An armed flush is a `Kind` in the
`scheduled` set. Deliveries to local callbacks are logged in `outbox`.

Modules: `Entities` holds the records. `Providers` holds the oracle.
`RefLists` holds the de-duplicating append `MergeRefs`, its loop
`AppendMissing`, its reference definition `NewEntries` and Java's
`List.remove(Object)`. `Aggregation` holds the aggregator itself.

## Model

| member | source | states |
|---|---|---|
| RefLists.AppendMissing | src/main/java/org/omnirom/music/providers/ProviderAggregator.java:957-972 | the loop "add each incoming entry the list does not contain yet" computes exactly `MergeRefs(existing, incoming)` |
| RefLists.MergeRefsIsAppend | src/main/java/org/omnirom/music/providers/ProviderAggregator.java:957-972 | the merged list is the old list followed by `NewEntries`, the not-yet-present incoming entries in incoming order; no existing entry is dropped or moved |
| RefLists.NewEntriesAreNew | src/main/java/org/omnirom/music/providers/ProviderAggregator.java:957-972 | every appended entry is an incoming entry that was not present, and none is appended twice |
| RefLists.MergeRefsConcat | src/main/java/org/omnirom/music/providers/ProviderAggregator.java:957-972 | merging `a` then `b` is merging `a + b`, so successive results for one query compose |
| RefLists.MergeRefsElements | src/main/java/org/omnirom/music/providers/ProviderAggregator.java:957-972 | an entry is in the merged list if and only if it was in the old list or in the incoming one |
| RefLists.MergeRefsHasIncoming | src/main/java/org/omnirom/music/providers/ProviderAggregator.java:863-869 | every incoming entry ends up in the merged list |
| RefLists.MergeRefsNoDup | src/main/java/org/omnirom/music/providers/ProviderAggregator.java:500-505 | merging into a duplicate-free list keeps it duplicate-free |
| RefLists.MergeRefsKeepsPrefix | src/main/java/org/omnirom/music/providers/ProviderAggregator.java:500-505 | the old list is a prefix of the merged one |
| RefLists.MergeRefsIdempotent | src/main/java/org/omnirom/music/providers/ProviderAggregator.java:953-973 | merging the same incoming lists a second time (a repeated search result) changes nothing |
| RefLists.MergeRefsOfPresent | src/main/java/org/omnirom/music/providers/ProviderAggregator.java:957-972 | merging entries that are all present already leaves the list as it was |
| RefLists.RemoveFirst | src/main/java/org/omnirom/music/providers/ProviderAggregator.java:207-209 | `List.remove(Object)` removes exactly one occurrence when there is one (multiset difference, length minus one) and nothing otherwise |
| Entities.Album.AddSong | src/main/java/org/omnirom/music/providers/ProviderAggregator.java:867 | an album lists a song reference once: adding a present one changes nothing, a new one is appended |
| Entities.Artist.AddAlbum | src/main/java/org/omnirom/music/providers/ProviderAggregator.java:823 | the artist's albums gain the reference and nothing else |
| Entities.Playlist.RemoveSong | src/main/java/org/omnirom/music/providers/ProviderAggregator.java:734-736 | the entry at the index is removed and the others keep their order |
| Entities.Playlist.AddSong | src/main/java/org/omnirom/music/providers/ProviderAggregator.java:740-742 | the reference is appended at the end |
| Aggregation.MergeRefsPreferred | src/main/java/org/omnirom/music/providers/ProviderAggregator.java:658-665 | once there is a preferred prefix, a later registration never changes it; the first prefix ever declared becomes it; with none declared there is none |
| Aggregation.UnionAlbums | src/main/java/org/omnirom/music/providers/ProviderAggregator.java:919-924 | an artist update keeps every cached album and adds every incoming one, and the result holds no other album |
| Aggregation.SongAfterUpdate | src/main/java/org/omnirom/music/providers/ProviderAggregator.java:794-806 | a cached song either stays as it was or takes all the incoming fields; it changes only to a loaded song; a loaded song never becomes unloaded |
| Aggregation.AlbumAfterOverwrite | src/main/java/org/omnirom/music/providers/ProviderAggregator.java:857-870 | name, year and loaded flag come from the incoming album; no cached song is dropped; all incoming songs are added when the counts differ, and none when they are equal |
| Aggregation.AddAlbums | src/main/java/org/omnirom/music/providers/ProviderAggregator.java:921-924 | the album loop leaves the artist's albums equal to `UnionAlbums` of the old and incoming sets |
| Aggregation.AddSongs | src/main/java/org/omnirom/music/providers/ProviderAggregator.java:864-868 | the song loop leaves the album's songs equal to `MergeRefs` of the old and incoming lists |
| Aggregation.ProviderAggregator.constructor | src/main/java/org/omnirom/music/providers/ProviderAggregator.java:164-169 | starts with no callbacks, no providers, an empty cache, nothing pending or armed, and an empty registry; the invariant holds |
| Aggregation.ProviderAggregator.AddUpdateCallback | src/main/java/org/omnirom/music/providers/ProviderAggregator.java:198-200 | the callback is appended to the callback list |
| Aggregation.ProviderAggregator.RemoveUpdateCallback | src/main/java/org/omnirom/music/providers/ProviderAggregator.java:207-209 | the first occurrence of the callback is removed |
| Aggregation.ProviderAggregator.Notify | src/main/java/org/omnirom/music/providers/ProviderAggregator.java:974-976 | each registered callback receives the notice once, in registration order |
| Aggregation.ProviderAggregator.PostSongForUpdate | src/main/java/org/omnirom/music/providers/ProviderAggregator.java:622-628 | the song is appended to the pending songs and the song flush is armed; the invariant is kept |
| Aggregation.ProviderAggregator.PostAlbumForUpdate | src/main/java/org/omnirom/music/providers/ProviderAggregator.java:630-636 | the same for albums |
| Aggregation.ProviderAggregator.PostArtistForUpdate | src/main/java/org/omnirom/music/providers/ProviderAggregator.java:638-644 | the same for artists |
| Aggregation.ProviderAggregator.PostPlaylistForUpdate | src/main/java/org/omnirom/music/providers/ProviderAggregator.java:646-652 | the same for playlists |
| Aggregation.ProviderAggregator.FlushSongs | src/main/java/org/omnirom/music/providers/ProviderAggregator.java:70-80 | every callback receives the whole pending song list once, in order; the list is then empty and the flush disarmed |
| Aggregation.ProviderAggregator.FlushAlbums | src/main/java/org/omnirom/music/providers/ProviderAggregator.java:82-92 | the same for albums |
| Aggregation.ProviderAggregator.FlushArtists | src/main/java/org/omnirom/music/providers/ProviderAggregator.java:94-104 | the same for artists |
| Aggregation.ProviderAggregator.FlushPlaylists | src/main/java/org/omnirom/music/providers/ProviderAggregator.java:106-116 | the same for playlists |
| Aggregation.ProviderAggregator.RegisterProvider | src/main/java/org/omnirom/music/providers/ProviderAggregator.java:483-518 | the connection is always appended (no duplicate check); a missing binder ends in the null dereference and a dead one refuses the callback, neither touching the registry or the callbacks; a live binder's declared prefixes each map to this provider (other mappings untouched) and the prefix list becomes the de-duplicating merge; with a live binder every callback is told the provider connected; the registry stays duplicate-free and names exactly the mapped prefixes |
| Aggregation.ProviderAggregator.RecordPrefixes | src/main/java/org/omnirom/music/providers/ProviderAggregator.java:497-506 | the prefix loop yields the old map overridden by every declared prefix and the de-duplicating merge of the prefix list, keeping the list duplicate-free and in step with the map |
| Aggregation.ProviderAggregator.UnregisterProvider | src/main/java/org/omnirom/music/providers/ProviderAggregator.java:527-543 | exactly one occurrence of the connection is removed from the active list |
| Aggregation.ProviderAggregator.GetPreferredRosettaStonePrefix | src/main/java/org/omnirom/music/providers/ProviderAggregator.java:658-665 | none if and only if the prefix list is empty; otherwise its first element |
| Aggregation.ProviderAggregator.GetRosettaStoneIdentifier | src/main/java/org/omnirom/music/providers/ProviderAggregator.java:667-669 | a provider is found if and only if the prefix was ever declared; it is the provider the map holds for it |
| Aggregation.ProviderAggregator.OnArtistUpdate | src/main/java/org/omnirom/music/providers/ProviderAggregator.java:908-928 | null changes nothing; an unknown artist is inserted and posted; a cached artist stays the cached object and, when it differs, takes the incoming name and loaded flag and the union of the album sets, and the incoming object is posted; an identical one changes nothing; songs, albums and their pending lists are untouched |
| Aggregation.ProviderAggregator.CacheNewArtist | src/main/java/org/omnirom/music/providers/ProviderAggregator.java:916-918 | an unknown artist is inserted under its reference and posted; nothing else in the cache changes |
| Aggregation.ProviderAggregator.OverwriteArtist | src/main/java/org/omnirom/music/providers/ProviderAggregator.java:919-926 | the cached artist takes the incoming name and loaded flag and the union of both album sets; the incoming object is posted |
| Aggregation.ProviderAggregator.CachedArtist | src/main/java/org/omnirom/music/providers/ProviderAggregator.java:319 | finds an artist if and only if the reference is present and cached, and then returns the cached object, whose reference matches |
| Aggregation.ProviderAggregator.CachedAlbum | src/main/java/org/omnirom/music/providers/ProviderAggregator.java:358 | the same for albums |
| Aggregation.ProviderAggregator.CachedSong | src/main/java/org/omnirom/music/providers/ProviderAggregator.java:274 | the same for songs |
| Aggregation.ProviderAggregator.CachedPlaylist | src/main/java/org/omnirom/music/providers/ProviderAggregator.java:718 | the same for playlists |
| Aggregation.ProviderAggregator.RetrieveArtist | src/main/java/org/omnirom/music/providers/ProviderAggregator.java:311-343 | a cached artist is returned with no change; otherwise the result is the provider's answer, stored in the cache and posted, or null when there is none; a non-null result is the cached object; the cache only grows |
| Aggregation.ProviderAggregator.RetrieveSong | src/main/java/org/omnirom/music/providers/ProviderAggregator.java:266-302 | a cached song is returned and nothing changes, cached artists included; on a miss the result is the provider's answer as a new object with those fields and the asking provider, now cached and the last pending song, with every earlier pending song kept before it; it is null when there is no reference or no answer, and then nothing changes; every song it posts is a new object; every step keeps `Progressed` |
| Aggregation.ProviderAggregator.RetrieveAlbum | src/main/java/org/omnirom/music/providers/ProviderAggregator.java:350-381 | the same cache-first rule as RetrieveSong, for albums: a hit or a null result changes nothing, cached artists included, and a new album answered on a miss is cached and is the last pending album, after the earlier pending ones |
| Aggregation.ProviderAggregator.RetrievePlaylist | src/main/java/org/omnirom/music/providers/ProviderAggregator.java:388-415 | the same cache-first rule; an answered playlist is stored and posted; a null result leaves the aggregator and the cached artists unchanged |
| Aggregation.ProviderAggregator.OnSongUpdate | src/main/java/org/omnirom/music/providers/ProviderAggregator.java:779-831 | null changes nothing; an unknown song is cached as given; a cached song becomes `SongAfterUpdate` of the old and incoming fields, and an update that does not overwrite changes nothing at all, cached artists included; an inserted or overwritten song is appended to the pending songs once: it is the last entry, every earlier pending song is kept before it, and the other new entries are songs that nested retrievals created; a song that has just become loaded leaves its artist listing its album when both are cached; every step keeps `Progressed` |
| Aggregation.ProviderAggregator.StoreSong | src/main/java/org/omnirom/music/providers/ProviderAggregator.java:785-807 | stores the song, or overwrites it exactly when `SongOverwrites` holds; reports whether it was loaded before and whether the cache changed |
| Aggregation.ProviderAggregator.CacheNewSong | src/main/java/org/omnirom/music/providers/ProviderAggregator.java:789-792 | an unknown song is inserted under its reference; the invariant holds |
| Aggregation.ProviderAggregator.OverwriteSong | src/main/java/org/omnirom/music/providers/ProviderAggregator.java:796-804 | the nine setters make the cached song's fields equal to the incoming song's; its provider is kept |
| Aggregation.ProviderAggregator.LinkAndPostSong | src/main/java/org/omnirom/music/providers/ProviderAggregator.java:809-830 | a song that has just become loaded leaves its artist listing its album; a changed song is the last pending song, after every earlier pending song, and the other new entries are songs that nested retrievals created; when neither applies nothing changes, cached artists included |
| Aggregation.ProviderAggregator.LinkSongAlbum | src/main/java/org/omnirom/music/providers/ProviderAggregator.java:809-826 | afterwards, if the song's artist and album are both cached, the artist lists the album; it keeps `Progressed`, and every song it posts is a new object |
| Aggregation.ProviderAggregator.AttachAlbum | src/main/java/org/omnirom/music/providers/ProviderAggregator.java:823 | the cached artist's albums gain exactly the album reference |
| Aggregation.ProviderAggregator.OnAlbumUpdate | src/main/java/org/omnirom/music/providers/ProviderAggregator.java:842-902 | null changes nothing; an unknown album is cached as given; a cached album that is not loaded or differs becomes `AlbumAfterOverwrite` and takes the incoming provider, and an update that does not overwrite changes nothing at all, cached artists included; an inserted or overwritten album is the last pending album, after every earlier pending album, and every incoming song that was cached and loaded with its artist cached when the update arrived ends with that artist listing the album; every song it posts is a new object |
| Aggregation.ProviderAggregator.StoreAlbum | src/main/java/org/omnirom/music/providers/ProviderAggregator.java:848-872 | stores the album, or overwrites it exactly when `AlbumOverwrites` holds; reports whether the cache changed; songs and artists are untouched, so every song ready to link stays ready |
| Aggregation.ProviderAggregator.CacheNewAlbum | src/main/java/org/omnirom/music/providers/ProviderAggregator.java:853-856 | an unknown album is inserted under its reference; the invariant holds |
| Aggregation.ProviderAggregator.OverwriteAlbum | src/main/java/org/omnirom/music/providers/ProviderAggregator.java:857-869 | the cached album becomes `AlbumAfterOverwrite` of its old fields and the incoming ones, and takes the incoming provider |
| Aggregation.ProviderAggregator.LinkAndPostAlbum | src/main/java/org/omnirom/music/providers/ProviderAggregator.java:878-901 | every song of the walk that was ready to link beforehand (cached, loaded, its artist cached) ends with its artist listing the album; then the cached album is the last pending album, after every earlier pending album |
| Aggregation.ProviderAggregator.LinkAlbumSongs | src/main/java/org/omnirom/music/providers/ProviderAggregator.java:880-898 | the loop over the incoming songs leaves every song that was ready to link when it began with its artist listing the album; it keeps `Progressed` |
| Aggregation.ProviderAggregator.LinkOneSong | src/main/java/org/omnirom/music/providers/ProviderAggregator.java:883-897 | the walked song, if it was ready to link before the step or is after it, ends with its cached artist listing the album; each earlier song of the walk that was ready when the walk began still has its artist listing the album |
| Aggregation.ProviderAggregator.LinkArtistOf | src/main/java/org/omnirom/music/providers/ProviderAggregator.java:886-891 | after the artist of a loaded cached song is looked up or fetched, the song is linked whenever its artist is cached; songs and albums are untouched |
| Aggregation.ProviderAggregator.OnPlaylistAddedOrUpdated | src/main/java/org/omnirom/music/providers/ProviderAggregator.java:708-773 | a null playlist or one without a reference changes nothing, cached artists included; an unknown one is inserted; a cached one keeps its identity and takes all incoming fields, and an identical one changes nothing; on a change the cached playlist is appended to the pending playlists and every song of it that was cached or that the provider answers is then cached |
| Aggregation.ProviderAggregator.StorePlaylist | src/main/java/org/omnirom/music/providers/ProviderAggregator.java:718-748 | inserts or overwrites the playlist and reports a change exactly when the fields differ |
| Aggregation.ProviderAggregator.OverwritePlaylist | src/main/java/org/omnirom/music/providers/ProviderAggregator.java:729-747 | emptying the cached playlist one entry at a time and re-adding the incoming songs in order makes its fields equal to the incoming ones |
| Aggregation.ProviderAggregator.PrefetchAndPostPlaylist | src/main/java/org/omnirom/music/providers/ProviderAggregator.java:754-768 | every song of the playlist that was cached or that the provider answers ends up cached; then the playlist is appended to the pending playlists; playlists are untouched |
| Aggregation.ProviderAggregator.OnSearchResult | src/main/java/org/omnirom/music/providers/ProviderAggregator.java:945-977 | null changes nothing; with no cached search or another query the result becomes the cached search and the old cached search object is left as it was; with the same query the cached object is kept, its identifier replaced and each of its four lists becomes `MergeRefs` of the old and incoming list; every callback is then told of the cached search |

The invariant `Valid` states five things. Each cached record sits under its own reference. A kind with pending updates has its flush armed. The prefix list has no duplicates. The prefix list names exactly the mapped prefixes. Every cached artist belongs to the proof-only set `Repr`.

The song and album reconciliation and retrieval methods call each other, and
every one of them keeps `Progressed`. It says that `Valid` holds and that no
cached song, album or artist is dropped or replaced by another object. Pending
lists are only appended to, and no cached artist loses an album. A song is
"ready to link" when it is cached and loaded and its artist is cached; it is
"linked" through an album when that artist also lists the album.

## Left out

- Threads, the executor, the `Handler` and `PROPAGATION_DELAY`. Their work runs synchronously, and `synchronized` blocks add nothing. The playlist prefetch task runs at once inside `OnPlaylistAddedOrUpdated`. A flush is a separate method that can be called whenever its kind is armed.
- Binder IPC and `PluginsLookup` are the `Net` oracle. A live binder answers a `get*(ref)` with an object carrying the requested reference. The song and album references any provider can answer form finite sets; the recursion's termination measure uses them.
- `ProviderCache` is four maps. The provider identifier it stores beside each entry is not modelled.
- The entity classes (`Song`, `Album`, `Artist`, `Playlist`, `SearchResult`) are not part of this model. Their behaviour is assumed as follows:
  - `isIdentical` is equality of the fields the aggregator's setters write, except for the album's provider (see below).
  - `Album.addSong` skips a reference already present.
  - `Artist` albums form a set.
  - `Playlist.addSong` appends.
- `mUpdatePlaylistsRunnable`, `ensurePlaylistsSongsCached` and `cacheSongs`/`cacheAlbums`/`cacheArtists` are not modelled. They are prefetch paths outside the reconciler.
- The following are not modelled: offline mode and its listeners, network connectivity, `Toast`, logging, `getCache`, `getAllPlaylists`, `getRosettaStonePrefix`, `onLoggedIn`/`onLoggedOut`, and the empty playback callbacks.
- RegisterProvider: the null-binder `NullPointerException` is an outcome value, not an exception that unwinds the caller. The binder-side `registerCallback` is not modelled.
- UnregisterProvider: the deferred `unregisterCallback` on the binder is not modelled. The removal runs at once, not on the `Handler`.
- OnPlaylistAddedOrUpdated: the catch-all exception handler is not modelled, because nothing in the model throws.
- LinkAlbumSongs: the final linkage is stated for the songs that were ready to link when the walk began. A song that becomes ready during the walk is linked at its own step (`LinkOneSong`), but that it is still linked at the end is not stated. A song whose artist is first cached by a later step is not linked, and the source does not link it either.
- LinkAndPostAlbum: states the same linkage as `LinkAlbumSongs`: only the songs ready to link before the walk are stated linked at the end.
- OnAlbumUpdate: states the same linkage as `LinkAlbumSongs`, for the songs that were ready when the update arrived.
- The album identity check (`Album.isIdentical`) does not compare the provider, although `onAlbumUpdate` sets it (line 861). `AlbumInfo` leaves it out, and `OverwriteAlbum` sets it separately.
- RetrieveSong: a new song answered by the provider carries the asking provider. In the source it carries whatever provider the binder's object names (lines 284, 884 and 888 use it). The binder's choice is not modelled.
- RetrieveAlbum: the same, for albums (line 367).
- Records with a null reference and search results with a null query are not modelled (lines 785, 848, 914 and 950). Every reference and query in the model is a string. The source would use a null key in the cache or throw a `NullPointerException` on a cached null query.
- LinkSongAlbum: the cache lookups that `onSongUpdate` makes before calling `retrieveArtist`/`retrieveAlbum` are folded into `RetrieveArtist`/`RetrieveAlbum`, which begin with the same lookup.
- Loaded-monotonicity is not claimed for albums or artists. The source lets an update overwrite a loaded album or artist with an unloaded one.
- The model reproduces several quirks of the source:
  - `onArtistUpdate` posts the incoming object, not the cached one.
  - `onAlbumUpdate` merges the song list only when the counts differ.
  - `registerProvider` does not skip a provider that is already registered.
  - `retrievePlaylist` leaves the result null on a remote exception without an early return.

/** The provider aggregator: one coordinator that caches the songs, albums,
    artists and playlists the providers report, reconciles each update with the
    cached record, queues real changes for debounced delivery to the local
    callbacks, merges incremental search results and keeps the rosetta-stone
    prefix registry. Work the source hands to its thread pool or its Handler
    runs here at once, in program order. */
module Aggregation {
  import opened Entities
  import opened Providers
  import opened RefLists

  /** A local callback (an `ILocalCallback`), by identity. */
  type CallbackId = nat

  /** The four entity kinds that have a pending-update list and a flush. */
  datatype Kind = SongKind | AlbumKind | ArtistKind | PlaylistKind

  /** What a local callback is told. */
  datatype Notice =
    | SongsUpdated(songs: seq<Song>)
    | AlbumsUpdated(albums: seq<Album>)
    | ArtistsUpdated(artists: seq<Artist>)
    | PlaylistsUpdated(playlists: seq<Playlist>)
    | SearchUpdated(result: SearchResult)
    | ProviderConnected(provider: ProviderId)

  datatype Delivery = Delivery(to: CallbackId, notice: Notice)

  /** One notice handed to each callback, in registration order. */
  function Broadcast(callbacks: seq<CallbackId>, n: Notice): seq<Delivery> {
    seq(|callbacks|, k requires 0 <= k < |callbacks| => Delivery(callbacks[k], n))
  }

  /** How `registerProvider` ends. */
  datatype Registration =
    | Registered        // callback registered, prefixes recorded, callbacks told
    | CallbackRefused   // the provider died before it took the callback
    | NullBinder        // no binder yet: the null dereference escapes to the caller

  /** Every declared prefix mapped to one provider. */
  function PrefixMap(prefixes: seq<string>, id: ProviderId): map<string, ProviderId> {
    map p | p in prefixes :: id
  }

  lemma PrefixMapSnoc(prefixes: seq<string>, i: nat, id: ProviderId)
    requires i < |prefixes|
    ensures PrefixMap(prefixes[..i + 1], id) == PrefixMap(prefixes[..i], id)[prefixes[i] := id]
  {
    assert prefixes[..i + 1] == prefixes[..i] + [prefixes[i]];
  }

  /** The cached artist's album set after an update: the incoming albums are
      added to it, none is taken away. */
  function UnionAlbums(cached: set<string>, incoming: set<string>): (r: set<string>)
    ensures cached <= r && incoming <= r
    ensures forall x :: x in r ==> x in cached || x in incoming
  {
    cached + incoming
  }

  /** A cached song is overwritten only by a loaded song that differs from it. */
  predicate SongOverwrites(cached: SongInfo, incoming: SongInfo) {
    incoming.isLoaded && cached != incoming
  }

  /** The cached song's fields after an update: either untouched or all
      taken from the incoming song, and a loaded song never becomes unloaded. */
  function SongAfterUpdate(cached: SongInfo, incoming: SongInfo): (r: SongInfo)
    ensures r == cached || r == incoming
    ensures r != cached ==> r.isLoaded
    ensures cached.isLoaded ==> r.isLoaded
  {
    if SongOverwrites(cached, incoming) then incoming else cached
  }

  /** A cached album is overwritten when it is not loaded yet or differs. */
  predicate AlbumOverwrites(cached: AlbumInfo, incoming: AlbumInfo) {
    !cached.isLoaded || cached != incoming
  }

  /** The cached album after an overwrite: name, year and loaded flag are
      copied; the song list is extended only when the two counts differ. */
  function AlbumAfterOverwrite(cached: AlbumInfo, incoming: AlbumInfo): (r: AlbumInfo)
    ensures r.name == incoming.name && r.year == incoming.year && r.isLoaded == incoming.isLoaded
    ensures cached.songs <= r.songs
    ensures |cached.songs| != |incoming.songs| ==> forall x :: x in incoming.songs ==> x in r.songs
    ensures |cached.songs| == |incoming.songs| ==> r.songs == cached.songs
  {
    MergeRefsKeepsPrefix(cached.songs, incoming.songs);
    MergeRefsHasIncoming(cached.songs, incoming.songs);
    AlbumInfo(incoming.name, incoming.year, incoming.isLoaded,
              if |cached.songs| != |incoming.songs| then MergeRefs(cached.songs, incoming.songs)
              else cached.songs)
  }

  /** The preferred rosetta prefix is the first of the list. Registering more
      prefixes never changes it once there is one, and the first prefix ever
      declared becomes it. */
  lemma {:induction false} MergeRefsPreferred(prefixes: seq<string>, declared: seq<string>)
    ensures prefixes != [] ==> MergeRefs(prefixes, declared) != [] && MergeRefs(prefixes, declared)[0] == prefixes[0]
    ensures prefixes == [] && declared != [] ==> MergeRefs(prefixes, declared) != [] && MergeRefs(prefixes, declared)[0] == declared[0]
    ensures prefixes == [] && declared == [] ==> MergeRefs(prefixes, declared) == []
  {
    MergeRefsIsAppend(prefixes, declared);
    if prefixes == [] && declared != [] {
      assert NewEntries(prefixes, declared)[0] == declared[0];
    }
  }

  /** The loop `while (it.hasNext()) cached.addAlbum(it.next())`. */
  method AddAlbums(artist: Artist, incoming: set<string>)
    modifies artist`albums
    ensures artist.albums == UnionAlbums(old(artist.albums), incoming)
  {
    var rest := incoming;
    while rest != {}
      invariant rest <= incoming
      invariant artist.albums == old(artist.albums) + (incoming - rest)
      decreases rest
    {
      var album :| album in rest;
      artist.AddAlbum(album);
      rest := rest - {album};
    }
  }

  /** The loop `while (songsIt.hasNext()) cached.addSong(songsIt.next())`. */
  method AddSongs(album: Album, incoming: seq<string>)
    modifies album`songs
    ensures album.songs == MergeRefs(old(album.songs), incoming)
  {
    var i := 0;
    while i < |incoming|
      invariant 0 <= i <= |incoming|
      invariant album.songs == MergeRefs(old(album.songs), incoming[..i])
    {
      assert incoming[..i + 1][..i] == incoming[..i];
      album.AddSong(incoming[i]);
      i := i + 1;
    }
    assert incoming[..|incoming|] == incoming;
  }

  class ProviderAggregator {
    var cachedSearch: SearchResult?
    var callbacks: seq<CallbackId>
    var providers: seq<Connection>

    // The cache, one map per kind, keyed by reference.
    var songs: map<string, Song>
    var albums: map<string, Album>
    var artists: map<string, Artist>
    var playlists: map<string, Playlist>

    // Pending-update lists and the kinds whose delayed flush is armed.
    var pendingSongs: seq<Song>
    var pendingAlbums: seq<Album>
    var pendingArtists: seq<Artist>
    var pendingPlaylists: seq<Playlist>
    var scheduled: set<Kind>

    var rosettaPrefixes: seq<string>
    var rosettaMap: map<string, ProviderId>

    /** Every notice handed to a local callback so far, in order. */
    var outbox: seq<Delivery>

    /** The artist objects the cache holds, with any it held before: the
        objects the reconciler may change. Bookkeeping for the proofs only. */
    ghost var Repr: set<Artist>

    /** Every cached record sits under its own reference. */
    ghost predicate SongsKeyed()
      reads this`songs
    {
      forall r :: r in songs ==> songs[r].ref == r
    }

    ghost predicate AlbumsKeyed()
      reads this`albums
    {
      forall r :: r in albums ==> albums[r].ref == r
    }

    ghost predicate ArtistsKeyed()
      reads this`artists
    {
      forall r :: r in artists ==> artists[r].ref == r
    }

    ghost predicate PlaylistsKeyed()
      reads this`playlists
    {
      forall r :: r in playlists ==> playlists[r].ref == Some(r)
    }

    /** A kind with pending updates has its flush armed. */
    ghost predicate Armed()
      reads this`pendingSongs, this`pendingAlbums, this`pendingArtists, this`pendingPlaylists, this`scheduled
    {
      && (pendingSongs != [] ==> SongKind in scheduled)
      && (pendingAlbums != [] ==> AlbumKind in scheduled)
      && (pendingArtists != [] ==> ArtistKind in scheduled)
      && (pendingPlaylists != [] ==> PlaylistKind in scheduled)
    }

    /** The prefix list has no duplicates and names exactly the mapped prefixes. */
    ghost predicate RosettaConsistent()
      reads this`rosettaPrefixes, this`rosettaMap
    {
      NoDup(rosettaPrefixes) && (forall p :: p in rosettaMap <==> p in rosettaPrefixes)
    }

    /** Every cached artist is one of the objects in `Repr`. */
    ghost predicate ArtistsOwned()
      reads this`artists, this`Repr
    {
      forall r :: r in artists ==> artists[r] in Repr
    }

    ghost predicate Valid()
      reads this
    {
      && SongsKeyed() && AlbumsKeyed() && ArtistsKeyed() && PlaylistsKeyed()
      && Armed() && RosettaConsistent() && ArtistsOwned()
    }

    constructor ()
      ensures Valid()
      ensures cachedSearch == null && callbacks == [] && providers == []
      ensures songs == map[] && albums == map[] && artists == map[] && playlists == map[]
      ensures pendingSongs == [] && pendingAlbums == [] && pendingArtists == [] && pendingPlaylists == []
      ensures scheduled == {} && rosettaPrefixes == [] && rosettaMap == map[] && outbox == []
    {
      cachedSearch, callbacks, providers := null, [], [];
      songs, albums, artists, playlists := map[], map[], map[], map[];
      pendingSongs, pendingAlbums, pendingArtists, pendingPlaylists := [], [], [], [];
      scheduled, rosettaPrefixes, rosettaMap, outbox := {}, [], map[], [];
      Repr := {};
    }

    /** The only cached record an update of `s` may overwrite. */
    function SongFrame(s: Song?): set<object>
      reads this`songs
    {
      if s != null && s.ref in songs then {songs[s.ref]} else {}
    }

    function AlbumFrame(a: Album?): set<object>
      reads this`albums
    {
      if a != null && a.ref in albums then {albums[a.ref]} else {}
    }

    function ArtistFrame(a: Artist?): set<object>
      reads this`artists
    {
      if a != null && a.ref in artists then {artists[a.ref]} else {}
    }

    /** The cached song under `ref`, as a frame. */
    function SongAt(ref: string): set<object>
      reads this`songs
    {
      if ref in songs then {songs[ref]} else {}
    }

    function PlaylistFrame(p: Playlist?): set<object>
      reads this`playlists
    {
      if p != null && p.ref.Some? && p.ref.value in playlists then {playlists[p.ref.value]} else {}
    }

    /** The reconciler's growth rules: cached songs, albums and artists are
        never dropped or replaced by another object. */
    twostate predicate CacheGrew()
      reads this`songs, this`albums, this`artists
    {
      && (forall r :: r in old(songs) ==> r in songs && songs[r] == old(songs[r]))
      && (forall r :: r in old(albums) ==> r in albums && albums[r] == old(albums[r]))
      && (forall r :: r in old(artists) ==> r in artists && artists[r] == old(artists[r]))
    }

    /** Artist objects taken on meanwhile are new objects. */
    twostate predicate ReprGrew()
      reads this`Repr
    {
      old(Repr) <= Repr && fresh(Repr - old(Repr))
    }

    /** The songs the providers could still add to the cache. Songs are never
        dropped, and every fetch that is answered caches the song, so the
        retrieval recursion ends. */
    ghost function SongsToFetch(net: Net): set<string>
      reads this`songs
    {
      net.songRefs - songs.Keys
    }

    /** The same for albums. */
    ghost function AlbumsToFetch(net: Net): set<string>
      reads this`albums
    {
      net.albumRefs - albums.Keys
    }

    /** The song `sr` is cached, loaded, and its artist is cached. */
    ghost predicate ReadyToLink(sr: string)
      reads this`songs, this`artists, SongAt(sr)
    {
      sr in songs && songs[sr].isLoaded && songs[sr].artist.Some? && songs[sr].artist.value in artists
    }

    /** The album `albumRef` is among the albums of the cached artist of song `sr`. */
    ghost predicate LinkedThrough(sr: string, albumRef: string)
      requires ArtistsOwned()
      reads this`songs, this`artists, this`Repr, SongAt(sr), Repr
    {
      ReadyToLink(sr) && albumRef in artists[songs[sr].artist.value].albums
    }

    /** Once an artist and an album are both cached, the artist lists the album. */
    ghost predicate Linked(artistRef: Option<string>, albumRef: Option<string>)
      requires ArtistsOwned()
      reads this`albums, this`artists, this`Repr, Repr
    {
      (artistRef.Some? && albumRef.Some? && artistRef.value in artists && albumRef.value in albums)
        ==> albumRef.value in artists[artistRef.value].albums
    }

    /** Pending updates are only ever appended to, never dropped. */
    twostate predicate PendingGrew()
      reads this`pendingSongs, this`pendingAlbums, this`pendingArtists
    {
      old(pendingSongs) <= pendingSongs && old(pendingAlbums) <= pendingAlbums
      && old(pendingArtists) <= pendingArtists
    }

    /** No artist object the cache held loses an album (with `ReprGrew`, every
        such object is still in `Repr`). */
    twostate predicate AlbumLinksGrew()
      reads this`Repr, Repr
    {
      forall x :: x in old(Repr) && x in Repr ==> old(x.albums) <= x.albums
    }

    /** The songs posted since the old state, up to position `upTo` of the
        pending list, are new objects. */
    twostate predicate SongsPostedFresh(upTo: int)
      reads this`pendingSongs
    {
      forall k :: |old(pendingSongs)| <= k < upTo && k < |pendingSongs| ==> fresh(pendingSongs[k])
    }

    /** Every song posted since the old state is a new object: one a
        retrieval made from a provider's answer. */
    twostate predicate NewSongsFresh()
      reads this`pendingSongs
    {
      SongsPostedFresh(|pendingSongs|)
    }

    /** What every step of the song and album reconciliation keeps: the
        invariant, the growth rules, artists it adds are new objects, pending
        updates are kept and artist-album links are kept. */
    twostate predicate Progressed()
      reads this, Repr
    {
      Valid() && CacheGrew() && ReprGrew() && PendingGrew() && AlbumLinksGrew()
    }

    // ---------------------------------------------------------------- callbacks

    method AddUpdateCallback(cb: CallbackId)
      modifies this`callbacks
      ensures callbacks == old(callbacks) + [cb]
    {
      callbacks := callbacks + [cb];
    }

    method RemoveUpdateCallback(cb: CallbackId)
      modifies this`callbacks
      ensures callbacks == RemoveFirst(old(callbacks), cb)
    {
      callbacks := RemoveFirst(callbacks, cb);
    }

    /** Hands `n` to every registered callback. */
    method Notify(n: Notice)
      modifies this`outbox
      ensures outbox == old(outbox) + Broadcast(callbacks, n)
    {
      var i := 0;
      while i < |callbacks|
        invariant 0 <= i <= |callbacks|
        invariant outbox == old(outbox) + Broadcast(callbacks[..i], n)
      {
        assert Broadcast(callbacks[..i + 1], n) == Broadcast(callbacks[..i], n) + [Delivery(callbacks[i], n)];
        outbox := outbox + [Delivery(callbacks[i], n)];
        i := i + 1;
      }
      assert callbacks[..|callbacks|] == callbacks;
    }

    // ------------------------------------------------- debounced notification

    method PostSongForUpdate(s: Song)
      requires Valid()
      modifies this`pendingSongs, this`scheduled
      ensures Valid()
      ensures pendingSongs == old(pendingSongs) + [s] && scheduled == old(scheduled) + {SongKind}
    {
      pendingSongs := pendingSongs + [s];
      scheduled := scheduled + {SongKind};
    }

    method PostAlbumForUpdate(a: Album)
      requires Valid()
      modifies this`pendingAlbums, this`scheduled
      ensures Valid()
      ensures pendingAlbums == old(pendingAlbums) + [a] && scheduled == old(scheduled) + {AlbumKind}
    {
      pendingAlbums := pendingAlbums + [a];
      scheduled := scheduled + {AlbumKind};
    }

    method PostArtistForUpdate(a: Artist)
      requires Valid()
      modifies this`pendingArtists, this`scheduled
      ensures Valid()
      ensures pendingArtists == old(pendingArtists) + [a] && scheduled == old(scheduled) + {ArtistKind}
    {
      pendingArtists := pendingArtists + [a];
      scheduled := scheduled + {ArtistKind};
    }

    method PostPlaylistForUpdate(p: Playlist)
      requires Valid()
      modifies this`pendingPlaylists, this`scheduled
      ensures Valid()
      ensures pendingPlaylists == old(pendingPlaylists) + [p] && scheduled == old(scheduled) + {PlaylistKind}
    {
      pendingPlaylists := pendingPlaylists + [p];
      scheduled := scheduled + {PlaylistKind};
    }

    /** The armed song flush fires: every callback gets its own copy of the
        pending list, all with the same contents; the list is then emptied
        and the flush is disarmed. */
    method FlushSongs()
      requires Valid() && SongKind in scheduled
      modifies this`pendingSongs, this`scheduled, this`outbox
      ensures Valid()
      ensures outbox == old(outbox) + Broadcast(callbacks, SongsUpdated(old(pendingSongs)))
      ensures pendingSongs == [] && scheduled == old(scheduled) - {SongKind}
    {
      Notify(SongsUpdated(pendingSongs));
      pendingSongs := [];
      scheduled := scheduled - {SongKind};
    }

    method FlushAlbums()
      requires Valid() && AlbumKind in scheduled
      modifies this`pendingAlbums, this`scheduled, this`outbox
      ensures Valid()
      ensures outbox == old(outbox) + Broadcast(callbacks, AlbumsUpdated(old(pendingAlbums)))
      ensures pendingAlbums == [] && scheduled == old(scheduled) - {AlbumKind}
    {
      Notify(AlbumsUpdated(pendingAlbums));
      pendingAlbums := [];
      scheduled := scheduled - {AlbumKind};
    }

    method FlushArtists()
      requires Valid() && ArtistKind in scheduled
      modifies this`pendingArtists, this`scheduled, this`outbox
      ensures Valid()
      ensures outbox == old(outbox) + Broadcast(callbacks, ArtistsUpdated(old(pendingArtists)))
      ensures pendingArtists == [] && scheduled == old(scheduled) - {ArtistKind}
    {
      Notify(ArtistsUpdated(pendingArtists));
      pendingArtists := [];
      scheduled := scheduled - {ArtistKind};
    }

    method FlushPlaylists()
      requires Valid() && PlaylistKind in scheduled
      modifies this`pendingPlaylists, this`scheduled, this`outbox
      ensures Valid()
      ensures outbox == old(outbox) + Broadcast(callbacks, PlaylistsUpdated(old(pendingPlaylists)))
      ensures pendingPlaylists == [] && scheduled == old(scheduled) - {PlaylistKind}
    {
      Notify(PlaylistsUpdated(pendingPlaylists));
      pendingPlaylists := [];
      scheduled := scheduled - {PlaylistKind};
    }

    // ------------------------------------------------------ provider registry

    method RegisterProvider(conn: Connection) returns (outcome: Registration)
      requires Valid()
      modifies this`providers, this`rosettaMap, this`rosettaPrefixes, this`outbox
      ensures Valid()
      ensures providers == old(providers) + [conn]
      ensures outcome == match conn.endpoint
                         case Unbound => NullBinder
                         case Dead => CallbackRefused
                         case Live(_) => Registered
      ensures conn.endpoint.Live? && conn.endpoint.binder.rosettaPrefixes.Some? ==>
                var declared := conn.endpoint.binder.rosettaPrefixes.value;
                && rosettaMap == old(rosettaMap) + PrefixMap(declared, conn.id)
                && rosettaPrefixes == MergeRefs(old(rosettaPrefixes), declared)
                && (forall p :: p in declared ==> p in rosettaMap && rosettaMap[p] == conn.id)
                && (forall p :: p in old(rosettaMap) && p !in declared ==> rosettaMap[p] == old(rosettaMap[p]))
      ensures !(conn.endpoint.Live? && conn.endpoint.binder.rosettaPrefixes.Some?) ==>
                rosettaMap == old(rosettaMap) && rosettaPrefixes == old(rosettaPrefixes)
      ensures outbox == if conn.endpoint.Live?
                        then old(outbox) + Broadcast(callbacks, ProviderConnected(conn.id))
                        else old(outbox)
    {
      providers := providers + [conn];
      match conn.endpoint {
        case Unbound =>
          outcome := NullBinder;
        case Dead =>
          outcome := CallbackRefused;
        case Live(binder) =>
          if binder.rosettaPrefixes.Some? {
            RecordPrefixes(binder.rosettaPrefixes.value, conn.id);
          }
          Notify(ProviderConnected(conn.id));
          outcome := Registered;
      }
    }

    /** The prefix loop of `registerProvider`: each declared prefix is mapped
        to the provider (a later registration overrides an earlier one) and
        appended to the prefix list unless it is already there. */
    method RecordPrefixes(declared: seq<string>, id: ProviderId)
      requires RosettaConsistent()
      modifies this`rosettaMap, this`rosettaPrefixes
      ensures RosettaConsistent()
      ensures rosettaMap == old(rosettaMap) + PrefixMap(declared, id)
      ensures rosettaPrefixes == MergeRefs(old(rosettaPrefixes), declared)
    {
      var i := 0;
      while i < |declared|
        invariant 0 <= i <= |declared|
        invariant rosettaMap == old(rosettaMap) + PrefixMap(declared[..i], id)
        invariant rosettaPrefixes == MergeRefs(old(rosettaPrefixes), declared[..i])
      {
        var prefix := declared[i];
        assert declared[..i + 1][..i] == declared[..i];
        PrefixMapSnoc(declared, i, id);
        rosettaMap := rosettaMap[prefix := id];
        if prefix !in rosettaPrefixes {
          rosettaPrefixes := rosettaPrefixes + [prefix];
        }
        i := i + 1;
      }
      assert declared[..|declared|] == declared;
      MergeRefsNoDup(old(rosettaPrefixes), declared);
      forall p ensures p in rosettaMap <==> p in rosettaPrefixes {
        MergeRefsElements(old(rosettaPrefixes), declared, p);
      }
    }

    /** Drops the first entry equal to `conn` from the active list; telling the
        provider to forget the callback is best effort and changes nothing here. */
    method UnregisterProvider(conn: Connection)
      modifies this`providers
      ensures providers == RemoveFirst(old(providers), conn)
    {
      providers := RemoveFirst(providers, conn);
    }

    function GetPreferredRosettaStonePrefix(): (r: Option<string>)
      reads this`rosettaPrefixes
      ensures r.None? <==> rosettaPrefixes == []
      ensures r.Some? ==> r.value == rosettaPrefixes[0]
    {
      if |rosettaPrefixes| > 0 then Some(rosettaPrefixes[0]) else None
    }

    function GetRosettaStoneIdentifier(prefix: string): (r: Option<ProviderId>)
      requires RosettaConsistent()
      reads this`rosettaPrefixes, this`rosettaMap
      ensures r.Some? <==> prefix in rosettaPrefixes
      ensures r.Some? ==> prefix in rosettaMap && r.value == rosettaMap[prefix]
    {
      if prefix in rosettaMap then Some(rosettaMap[prefix]) else None
    }

    // ------------------------------------------------------------ reconciler

    /** `onArtistUpdate`: an unknown artist is cached and posted; a cached one
        that differs gets the incoming name and loaded flag and the union of
        both album sets, and the INCOMING object is posted; an identical one
        changes nothing. */
    method OnArtistUpdate(provider: ProviderId, a: Artist?)
      requires Valid()
      modifies this`artists, this`Repr, this`pendingArtists, this`scheduled, ArtistFrame(a)
      ensures Valid() && CacheGrew()
      ensures songs == old(songs) && albums == old(albums)
      ensures pendingSongs == old(pendingSongs) && pendingAlbums == old(pendingAlbums)
      ensures a == null ==> unchanged(this)
      ensures a != null && a.ref !in old(artists) ==>
                && artists == old(artists)[a.ref := a] && Repr == old(Repr) + {a}
                && pendingArtists == old(pendingArtists) + [a]
                && unchanged(a)
      ensures a != null && a.ref in old(artists) ==> artists == old(artists) && Repr == old(Repr)
      ensures a != null && a.ref in old(artists) && old(artists[a.ref].Info()) == old(a.Info()) ==>
                unchanged(this) && unchanged(artists[a.ref])
      ensures a != null && a.ref in old(artists) && old(artists[a.ref].Info()) != old(a.Info()) ==>
                && artists[a.ref].name == old(a.name)
                && artists[a.ref].albums == UnionAlbums(old(artists[a.ref].albums), old(a.albums))
                && artists[a.ref].isLoaded == old(a.isLoaded)
                && pendingArtists == old(pendingArtists) + [a]
    {
      if a == null {
        return;
      }
      if a.ref !in artists {
        CacheNewArtist(a);
      } else if artists[a.ref].Info() != a.Info() {
        OverwriteArtist(a);
      }
    }

    /** An artist not in the cache yet is stored and posted. */
    method CacheNewArtist(a: Artist)
      requires Valid() && a.ref !in artists
      modifies this`artists, this`Repr, this`pendingArtists, this`scheduled
      ensures Valid() && CacheGrew()
      ensures songs == old(songs) && albums == old(albums)
      ensures pendingSongs == old(pendingSongs) && pendingAlbums == old(pendingAlbums)
      ensures artists == old(artists)[a.ref := a] && Repr == old(Repr) + {a}
      ensures pendingArtists == old(pendingArtists) + [a]
    {
      artists, Repr := artists[a.ref := a], Repr + {a};
      PostArtistForUpdate(a);
    }

    /** A cached artist that differs from the incoming one takes its name and
        loaded flag and gains its albums; the incoming object is posted. */
    method OverwriteArtist(a: Artist)
      requires Valid() && a.ref in artists
      modifies this`pendingArtists, this`scheduled, artists[a.ref]
      ensures Valid() && CacheGrew()
      ensures songs == old(songs) && albums == old(albums) && artists == old(artists)
      ensures pendingSongs == old(pendingSongs) && pendingAlbums == old(pendingAlbums)
      ensures artists[a.ref].name == old(a.name)
      ensures artists[a.ref].albums == UnionAlbums(old(artists[a.ref].albums), old(a.albums))
      ensures artists[a.ref].isLoaded == old(a.isLoaded)
      ensures pendingArtists == old(pendingArtists) + [a]
    {
      var cached: Artist := artists[a.ref];
      var name, incoming, loaded := a.name, a.albums, a.isLoaded;
      cached.name := name;
      AddAlbums(cached, incoming);
      cached.isLoaded := loaded;
      PostArtistForUpdate(a);
    }

    /** The cache lookup `mCache.getArtist(ref)`; a null reference finds nothing. */
    function CachedArtist(ref: Option<string>): (r: Artist?)
      requires ArtistsKeyed()
      reads this`artists
      ensures r != null <==> ref.Some? && ref.value in artists
      ensures r != null ==> r == artists[ref.value] && r.ref == ref.value
    {
      if ref.Some? && ref.value in artists then artists[ref.value] else null
    }

    function CachedAlbum(ref: Option<string>): (r: Album?)
      requires AlbumsKeyed()
      reads this`albums
      ensures r != null <==> ref.Some? && ref.value in albums
      ensures r != null ==> r == albums[ref.value] && r.ref == ref.value
    {
      if ref.Some? && ref.value in albums then albums[ref.value] else null
    }

    /** `retrieveArtist`: the cached artist if there is one; otherwise the
        provider's answer, fed through `OnArtistUpdate`; null when there is
        no reference, no answer, or the provider is missing or dead. */
    method RetrieveArtist(ref: Option<string>, provider: Option<ProviderId>, net: Net) returns (r: Artist?)
      requires Valid()
      modifies this`artists, this`Repr, this`pendingArtists, this`scheduled
      ensures Progressed()
      ensures songs == old(songs) && albums == old(albums)
      ensures r != null ==> ref.Some? && ref.value in artists && artists[ref.value] == r
      ensures r == null ==> unchanged(this) && (ref.None? || ref.value !in artists)
      ensures ref.Some? && ref.value in old(artists) ==> r == old(artists[ref.value]) && unchanged(this)
      ensures ref.Some? && ref.value !in old(artists) ==>
                match ArtistAnswer(net, provider, ref.value)
                case None => r == null
                case Some(info) =>
                  && r != null && fresh(r) && r.Info() == info
                  && pendingArtists == old(pendingArtists) + [r]
    {
      if ref.None? {
        return null;
      }
      r := CachedArtist(ref);
      if r == null && provider.Some? && provider.value in net.endpoints {
        match net.endpoints[provider.value] {
          case Unbound =>
          case Dead =>
            return null;
          case Live(binder) =>
            if ref.value in binder.artists {
              r := new Artist(ref.value, binder.artists[ref.value]);
              OnArtistUpdate(provider.value, r);
            }
        }
      }
    }

    function CachedSong(ref: Option<string>): (r: Song?)
      requires SongsKeyed()
      reads this`songs
      ensures r != null <==> ref.Some? && ref.value in songs
      ensures r != null ==> r == songs[ref.value] && r.ref == ref.value
    {
      if ref.Some? && ref.value in songs then songs[ref.value] else null
    }

    // ------------------------------------------ song and album reconciliation
    //
    // onSongUpdate links a newly loaded song's album to its artist, fetching
    // the album; onAlbumUpdate links the album to the artist of each of its
    // songs, fetching the songs. Every fetch that reaches a provider is for a
    // reference the cache lacks and, when answered, caches it, so the
    // recursion is measured by the songs, then the albums, still to fetch
    // and, while both stay the same, by the rank written last in each
    // `decreases`.

    /** `onSongUpdate`: an unknown song is cached; a cached one is overwritten
        field by field only by a loaded song that differs from it. A song that
        has just become loaded gets its album linked to its artist. The cached
        record is posted when it was inserted or overwritten. */
    method OnSongUpdate(provider: ProviderId, s: Song?, net: Net)
      requires Valid() && Bounded(net)
      modifies this`songs, this`albums, this`artists, this`pendingSongs, this`pendingAlbums,
               this`pendingArtists, this`scheduled, this`Repr, Repr, SongFrame(s)
      decreases SongsToFetch(net), AlbumsToFetch(net), if s != null && s.ref !in songs && s.ref in net.songRefs then 0 else 5
      ensures Progressed()
      ensures s == null ==> unchanged(this) && unchanged(Repr)
      ensures s != null ==> s.ref in songs
      ensures s != null && s.ref !in old(songs) ==> songs[s.ref] == s && unchanged(s)
      ensures s != null && s.ref in old(songs) ==>
                songs[s.ref].Info() == SongAfterUpdate(old(songs[s.ref].Info()), old(s.Info()))
      ensures s != null && s.ref in old(songs) && !SongOverwrites(old(songs[s.ref].Info()), old(s.Info())) ==>
                unchanged(this) && unchanged(Repr) && unchanged(songs[s.ref])
      ensures s != null && (s.ref !in old(songs) || SongOverwrites(old(songs[s.ref].Info()), old(s.Info()))) ==>
                && pendingSongs != [] && pendingSongs[|pendingSongs| - 1] == songs[s.ref]
                && old(pendingSongs) <= pendingSongs[..|pendingSongs| - 1]
                && SongsPostedFresh(|pendingSongs| - 1)
                && songs[s.ref] !in pendingSongs[|old(pendingSongs)|..|pendingSongs| - 1]
      ensures s == null || (s.ref in old(songs) && !SongOverwrites(old(songs[s.ref].Info()), old(s.Info()))) ==>
                NewSongsFresh()
      ensures s != null && old(s.isLoaded) && (s.ref !in old(songs) || !old(songs[s.ref].isLoaded)) ==>
                Linked(old(s.artist), old(s.album))
    {
      if s != null {
        var wasLoaded, changed := StoreSong(s);
        LinkAndPostSong(songs[s.ref], s.artist, s.album, wasLoaded, changed, provider, net);
      }
    }

    /** The second half of `onSongUpdate`: a cached song that has just become
        loaded gets its album linked to its artist, then the song is posted if
        the cache changed. */
    method LinkAndPostSong(cached: Song, artistRef: Option<string>, albumRef: Option<string>,
                           wasLoaded: bool, changed: bool, provider: ProviderId, net: Net)
      requires Valid() && Bounded(net) && cached.ref in songs && songs[cached.ref] == cached
      modifies this`songs, this`albums, this`artists, this`pendingSongs, this`pendingAlbums,
               this`pendingArtists, this`scheduled, this`Repr, Repr
      decreases SongsToFetch(net), AlbumsToFetch(net), 4
      ensures Progressed()
      ensures (wasLoaded || !cached.isLoaded) && !changed ==> unchanged(this) && unchanged(Repr)
      ensures changed ==>
                && pendingSongs != [] && pendingSongs[|pendingSongs| - 1] == cached
                && old(pendingSongs) <= pendingSongs[..|pendingSongs| - 1]
                && SongsPostedFresh(|pendingSongs| - 1)
      ensures !changed ==> NewSongsFresh()
      ensures !wasLoaded && cached.isLoaded ==> Linked(artistRef, albumRef)
    {
      if !wasLoaded && cached.isLoaded {
        LinkSongAlbum(artistRef, albumRef, Some(provider), net);
      }
      if changed {
        PostSongForUpdate(cached);
      }
    }

    /** The cache half of `onSongUpdate`: an unknown song is stored, a cached
        one is overwritten when the incoming song is loaded and differs.
        Reports whether the cached song was loaded before and whether the
        cache changed. */
    method StoreSong(s: Song) returns (wasLoaded: bool, changed: bool)
      requires Valid()
      modifies this`songs, SongFrame(s)
      ensures Progressed() && unchanged(s)
      ensures s.ref !in old(songs) ==> songs == old(songs)[s.ref := s] && !wasLoaded && changed
      ensures s.ref in old(songs) ==>
                && songs == old(songs)
                && wasLoaded == old(songs[s.ref].isLoaded)
                && changed == SongOverwrites(old(songs[s.ref].Info()), old(s.Info()))
                && songs[s.ref].Info() == SongAfterUpdate(old(songs[s.ref].Info()), old(s.Info()))
      ensures s.ref in old(songs) && !changed ==> unchanged(songs[s.ref])
    {
      wasLoaded, changed := false, false;
      if s.ref !in songs {
        CacheNewSong(s);
        changed := true;
      } else {
        wasLoaded := songs[s.ref].isLoaded;
        if s.isLoaded && songs[s.ref].Info() != s.Info() {
          OverwriteSong(s);
          changed := true;
        }
      }
    }

    /** `mCache.putSong`: stores a song the cache does not have yet. */
    method CacheNewSong(s: Song)
      requires Valid() && s.ref !in songs
      modifies this`songs
      ensures Valid() && songs == old(songs)[s.ref := s]
    {
      songs := songs[s.ref := s];
    }

    /** The nine setters that copy a loaded, different song onto the cached one. */
    method OverwriteSong(s: Song)
      requires Valid() && s.ref in songs
      modifies songs[s.ref]
      ensures songs[s.ref].Info() == old(s.Info())
      ensures songs[s.ref].provider == old(songs[s.ref].provider)
    {
      var cached: Song := songs[s.ref];
      var info := s.Info();
      cached.album := info.album;
      cached.artist := info.artist;
      cached.logo := info.logo;
      cached.duration := info.duration;
      cached.title := info.title;
      cached.year := info.year;
      cached.offlineStatus := info.offlineStatus;
      cached.available := info.available;
      cached.isLoaded := info.isLoaded;
    }

    /** The album-to-artist match of `onSongUpdate`: the artist from the cache
        or its provider, then (when there is one) the album likewise, and the
        album's reference is added to the artist's albums. `RetrieveArtist`
        and `RetrieveAlbum` begin with the cache lookup that `onSongUpdate`
        makes before calling them, so they stand for lookup and call alike. */
    method LinkSongAlbum(artistRef: Option<string>, albumRef: Option<string>, provider: Option<ProviderId>, net: Net)
      requires Valid() && Bounded(net)
      modifies this`songs, this`albums, this`artists, this`pendingSongs, this`pendingAlbums,
               this`pendingArtists, this`scheduled, this`Repr, Repr
      decreases SongsToFetch(net), AlbumsToFetch(net), 3
      ensures Progressed()
      ensures NewSongsFresh()
      ensures Linked(artistRef, albumRef)
    {
      var artist := RetrieveArtist(artistRef, provider, net);
      if artist != null {
        var album := RetrieveAlbum(albumRef, provider, net);
        if album != null {
          AttachAlbum(artist, album.ref);
        }
      }
    }

    /** `artist.addAlbum(albumRef)` on a cached artist. */
    method AttachAlbum(artist: Artist, albumRef: string)
      requires Valid() && artist.ref in artists && artists[artist.ref] == artist
      modifies artist`albums
      ensures Progressed()
      ensures artist.albums == old(artist.albums) + {albumRef}
    {
      artist.AddAlbum(albumRef);
    }

    /** `retrieveSong`: the cached song if there is one; otherwise the
        provider's answer, fed through `OnSongUpdate`; null when there is no
        reference, no answer, or the provider is missing or dead. (A live
        provider that answers null hands null to `onSongUpdate`, which
        ignores it, so that call is not made here.) */
    method RetrieveSong(ref: Option<string>, provider: Option<ProviderId>, net: Net) returns (r: Song?)
      requires Valid() && Bounded(net)
      modifies this`songs, this`albums, this`artists, this`pendingSongs, this`pendingAlbums,
               this`pendingArtists, this`scheduled, this`Repr, Repr
      decreases SongsToFetch(net), AlbumsToFetch(net), 1
      ensures Progressed()
      ensures NewSongsFresh()
      ensures r != null ==> ref.Some? && ref.value in songs && songs[ref.value] == r
      ensures r == null ==> unchanged(this) && unchanged(Repr) && (ref.None? || ref.value !in songs)
      ensures ref.Some? && ref.value in old(songs) ==> r == old(songs[ref.value]) && unchanged(this) && unchanged(Repr)
      ensures ref.Some? && ref.value !in old(songs) ==>
                match SongAnswer(net, provider, ref.value)
                case None => r == null
                case Some(info) =>
                  && r != null && fresh(r) && r.Info() == info && r.provider == provider
                  && pendingSongs != [] && pendingSongs[|pendingSongs| - 1] == r
    {
      if ref.None? {
        return null;
      }
      r := CachedSong(ref);
      if r == null && provider.Some? && provider.value in net.endpoints {
        match net.endpoints[provider.value] {
          case Unbound =>
          case Dead =>
            return null;
          case Live(binder) =>
            if ref.value in binder.songs {
              r := new Song(ref.value, binder.songs[ref.value], provider);
              assert ref.value in net.songRefs;
              OnSongUpdate(provider.value, r, net);
            }
        }
      }
    }

    /** `retrieveAlbum`, the same cache-first lookup for albums. */
    method RetrieveAlbum(ref: Option<string>, provider: Option<ProviderId>, net: Net) returns (r: Album?)
      requires Valid() && Bounded(net)
      modifies this`songs, this`albums, this`artists, this`pendingSongs, this`pendingAlbums,
               this`pendingArtists, this`scheduled, this`Repr, Repr
      decreases SongsToFetch(net), AlbumsToFetch(net), 1
      ensures Progressed()
      ensures NewSongsFresh()
      ensures r != null ==> ref.Some? && ref.value in albums && albums[ref.value] == r
      ensures r == null ==> unchanged(this) && unchanged(Repr) && (ref.None? || ref.value !in albums)
      ensures ref.Some? && ref.value in old(albums) ==> r == old(albums[ref.value]) && unchanged(this) && unchanged(Repr)
      ensures ref.Some? && ref.value !in old(albums) ==>
                match AlbumAnswer(net, provider, ref.value)
                case None => r == null
                case Some(info) =>
                  && r != null && fresh(r) && r.Info() == info && r.provider == provider
                  && pendingAlbums != [] && pendingAlbums[|pendingAlbums| - 1] == r
    {
      if ref.None? {
        return null;
      }
      r := CachedAlbum(ref);
      if r == null && provider.Some? && provider.value in net.endpoints {
        match net.endpoints[provider.value] {
          case Unbound =>
          case Dead =>
          case Live(binder) =>
            if ref.value in binder.albums {
              r := new Album(ref.value, binder.albums[ref.value], provider);
              assert ref.value in net.albumRefs;
              OnAlbumUpdate(provider.value, r, net);
            }
        }
      }
    }

    /** `onAlbumUpdate`: an unknown album is cached; a cached one that is not
        loaded or differs gets the incoming name, year, loaded flag and
        provider, and its song list is extended only when the two counts
        differ. After either, the album is linked to the artist of each
        incoming song and the cached record is posted. */
    method OnAlbumUpdate(provider: ProviderId, a: Album?, net: Net)
      requires Valid() && Bounded(net)
      modifies this`songs, this`albums, this`artists, this`pendingSongs, this`pendingAlbums,
               this`pendingArtists, this`scheduled, this`Repr, Repr, AlbumFrame(a)
      decreases SongsToFetch(net), AlbumsToFetch(net), if a != null && a.ref !in albums && a.ref in net.albumRefs then 0 else 5
      ensures Progressed()
      ensures NewSongsFresh()
      ensures a == null ==> unchanged(this) && unchanged(Repr)
      ensures a != null ==> a.ref in albums
      ensures a != null && a.ref !in old(albums) ==> albums[a.ref] == a && unchanged(a)
      ensures a != null && a.ref in old(albums) && AlbumOverwrites(old(albums[a.ref].Info()), old(a.Info())) ==>
                && albums[a.ref].Info() == AlbumAfterOverwrite(old(albums[a.ref].Info()), old(a.Info()))
                && albums[a.ref].provider == old(a.provider)
      ensures a != null && a.ref in old(albums) && !AlbumOverwrites(old(albums[a.ref].Info()), old(a.Info())) ==>
                unchanged(this) && unchanged(Repr) && unchanged(albums[a.ref])
      ensures a != null && (a.ref !in old(albums) || AlbumOverwrites(old(albums[a.ref].Info()), old(a.Info()))) ==>
                && pendingAlbums != [] && pendingAlbums[|pendingAlbums| - 1] == albums[a.ref]
                && old(pendingAlbums) <= pendingAlbums[..|pendingAlbums| - 1]
                && forall sr :: sr in old(a.songs) && old(ReadyToLink(sr)) ==> LinkedThrough(sr, a.ref)
    {
      if a != null {
        var incomingSongs, incomingProvider := a.songs, a.provider;
        var modified := StoreAlbum(a);
        if modified {
          LinkAndPostAlbum(albums[a.ref], incomingSongs, incomingProvider, net);
        }
      }
    }

    /** The second half of `onAlbumUpdate` once the cache changed: the album
        is linked to the artists of the incoming songs, then posted. */
    method LinkAndPostAlbum(cached: Album, songRefs: seq<string>, provider: Option<ProviderId>, net: Net)
      requires Valid() && Bounded(net) && cached.ref in albums && albums[cached.ref] == cached
      modifies this`songs, this`albums, this`artists, this`pendingSongs, this`pendingAlbums,
               this`pendingArtists, this`scheduled, this`Repr, Repr
      decreases SongsToFetch(net), AlbumsToFetch(net), 4
      ensures Progressed()
      ensures NewSongsFresh()
      ensures pendingAlbums != [] && pendingAlbums[|pendingAlbums| - 1] == cached
      ensures old(pendingAlbums) <= pendingAlbums[..|pendingAlbums| - 1]
      ensures forall k :: 0 <= k < |songRefs| && old(ReadyToLink(songRefs[k])) ==> LinkedThrough(songRefs[k], cached.ref)
    {
      LinkAlbumSongs(cached.ref, songRefs, provider, net);
      PostAlbumForUpdate(cached);
    }

    /** The cache half of `onAlbumUpdate`: an unknown album is stored, a
        cached one is overwritten when it is not loaded or differs. Reports
        whether the cache changed. */
    method StoreAlbum(a: Album) returns (modified: bool)
      requires Valid()
      modifies this`albums, AlbumFrame(a)
      ensures Progressed()
      ensures forall sr :: old(ReadyToLink(sr)) ==> ReadyToLink(sr)
      ensures a.ref !in old(albums) ==> albums == old(albums)[a.ref := a] && unchanged(a) && modified
      ensures a.ref in old(albums) ==>
                && albums == old(albums)
                && modified == AlbumOverwrites(old(albums[a.ref].Info()), old(a.Info()))
      ensures a.ref in old(albums) && modified ==>
                && albums[a.ref].Info() == AlbumAfterOverwrite(old(albums[a.ref].Info()), old(a.Info()))
                && albums[a.ref].provider == old(a.provider)
      ensures a.ref in old(albums) && !modified ==> unchanged(albums[a.ref])
    {
      modified := false;
      if a.ref !in albums {
        CacheNewAlbum(a);
        modified := true;
      } else if !albums[a.ref].isLoaded || albums[a.ref].Info() != a.Info() {
        OverwriteAlbum(a);
        modified := true;
      }
    }

    /** `mCache.putAlbum`: stores an album the cache does not have yet. */
    method CacheNewAlbum(a: Album)
      requires Valid() && a.ref !in albums
      modifies this`albums
      ensures Valid() && albums == old(albums)[a.ref := a]
    {
      albums := albums[a.ref := a];
    }

    /** The setters of `onAlbumUpdate` applied to the cached album. */
    method OverwriteAlbum(a: Album)
      requires Valid() && a.ref in albums
      modifies albums[a.ref]
      ensures albums[a.ref].Info() == AlbumAfterOverwrite(old(albums[a.ref].Info()), old(a.Info()))
      ensures albums[a.ref].provider == old(a.provider)
    {
      var cached: Album := albums[a.ref];
      var name, year, loaded, prov, incoming := a.name, a.year, a.isLoaded, a.provider, a.songs;
      cached.name := name;
      cached.year := year;
      cached.isLoaded := loaded;
      cached.provider := prov;
      if |cached.songs| != |incoming| {
        AddSongs(cached, incoming);
      }
    }

    /** The song walk of `onAlbumUpdate`: every song of the incoming album is
        fetched and, when it is loaded, its artist gains the album. Each song
        that was already loaded with a cached artist ends up linked. */
    method LinkAlbumSongs(albumRef: string, songRefs: seq<string>, provider: Option<ProviderId>, net: Net)
      requires Valid() && Bounded(net)
      modifies this`songs, this`albums, this`artists, this`pendingSongs, this`pendingAlbums,
               this`pendingArtists, this`scheduled, this`Repr, Repr
      decreases SongsToFetch(net), AlbumsToFetch(net), 3
      ensures Progressed()
      ensures NewSongsFresh()
      ensures forall k :: 0 <= k < |songRefs| && old(ReadyToLink(songRefs[k])) ==> LinkedThrough(songRefs[k], albumRef)
    {
      ghost var owner := OwnerMap(songRefs);
      var i := 0;
      while i < |songRefs|
        invariant 0 <= i <= |songRefs|
        invariant Progressed() && NewSongsFresh()
        invariant owner.Values <= Repr && LinkedVia(owner, songRefs, i, albumRef)
      {
        LinkOneSong(albumRef, songRefs, i, provider, net, owner);
        i := i + 1;
      }
    }

    /** For each song of the walk that is ready to link, the cached artist
        object it names: the object the walk must link through. */
    ghost function OwnerMap(songRefs: seq<string>): map<string, Artist>
      reads this`songs, this`artists, songs.Values
    {
      map sr | sr in songRefs && ReadyToLink(sr) :: artists[songs[sr].artist.value]
    }

    /** Each of the first `n` songs that was ready when the walk began has its
        artist listing the album. */
    ghost predicate LinkedVia(owner: map<string, Artist>, songRefs: seq<string>, n: int, albumRef: string)
      reads owner.Values
    {
      forall k :: 0 <= k < n && k < |songRefs| && songRefs[k] in owner ==> albumRef in owner[songRefs[k]].albums
    }

    /** Step `i` of the song walk. `owner` is the walk's bookkeeping: the
        artist object each song ready at the start links through. */
    method LinkOneSong(albumRef: string, songRefs: seq<string>, i: nat, provider: Option<ProviderId>, net: Net,
                       ghost owner: map<string, Artist>)
      requires Valid() && Bounded(net) && i < |songRefs|
      requires owner.Values <= Repr && LinkedVia(owner, songRefs, i, albumRef)
      requires songRefs[i] in owner ==> ReadyToLink(songRefs[i]) && artists[songs[songRefs[i]].artist.value] == owner[songRefs[i]]
      modifies this`songs, this`albums, this`artists, this`pendingSongs, this`pendingAlbums,
               this`pendingArtists, this`scheduled, this`Repr, Repr
      decreases SongsToFetch(net), AlbumsToFetch(net), 2
      ensures Progressed()
      ensures NewSongsFresh()
      ensures old(ReadyToLink(songRefs[i])) ==> LinkedThrough(songRefs[i], albumRef)
      ensures ReadyToLink(songRefs[i]) ==> LinkedThrough(songRefs[i], albumRef)
      ensures owner.Values <= Repr && LinkedVia(owner, songRefs, i + 1, albumRef)
    {
      var song := RetrieveSong(Some(songRefs[i]), provider, net);
      if song != null && song.isLoaded {
        LinkArtistOf(song, albumRef, net);
      }
    }

    /** The artist half of one walk step: the artist of a cached, loaded song,
        from the cache or the song's provider, gains the album. */
    method LinkArtistOf(song: Song, albumRef: string, net: Net)
      requires Valid() && song.ref in songs && songs[song.ref] == song && song.isLoaded
      modifies this`artists, this`Repr, this`pendingArtists, this`scheduled, Repr
      ensures Progressed()
      ensures NewSongsFresh()
      ensures songs == old(songs) && albums == old(albums)
      ensures ReadyToLink(song.ref) ==> LinkedThrough(song.ref, albumRef)
    {
      var artist := RetrieveArtist(song.artist, song.provider, net);
      if artist != null {
        AttachAlbum(artist, albumRef);
      }
    }

    // -------------------------------------------------------------- playlists

    /** The cache lookup `mCache.getPlaylist(ref)`. */
    function CachedPlaylist(ref: Option<string>): (r: Playlist?)
      requires PlaylistsKeyed()
      reads this`playlists
      ensures r != null <==> ref.Some? && ref.value in playlists
      ensures r != null ==> r == playlists[ref.value] && r.ref == ref
    {
      if ref.Some? && ref.value in playlists then playlists[ref.value] else null
    }

    /** `onPlaylistAddedOrUpdated`: a playlist without a reference is ignored;
        an unknown one is cached; a cached one that differs takes the incoming
        name, songs and offline fields in place. When the cache changed, every
        song of the cached playlist is fetched from the provider and the
        playlist is posted. */
    method OnPlaylistAddedOrUpdated(provider: ProviderId, p: Playlist?, net: Net)
      requires Valid() && Bounded(net)
      modifies this`songs, this`albums, this`artists, this`pendingSongs, this`pendingAlbums,
               this`pendingArtists, this`scheduled, this`Repr, Repr,
               this`playlists, this`pendingPlaylists, PlaylistFrame(p)
      ensures Progressed()
      ensures p == null || p.ref.None? ==> unchanged(this) && unchanged(Repr)
      ensures p != null && p.ref.Some? && p.ref.value !in old(playlists) ==>
                playlists == old(playlists)[p.ref.value := p] && unchanged(p)
      ensures p != null && p.ref.Some? && p.ref.value in old(playlists) ==>
                && playlists == old(playlists)
                && playlists[p.ref.value].Info() == old(p.Info())
      ensures p != null && p.ref.Some? && p.ref.value in old(playlists)
              && old(playlists[p.ref.value].Info()) == old(p.Info()) ==>
                unchanged(this) && unchanged(Repr) && unchanged(playlists[p.ref.value])
      ensures p != null && p.ref.Some? && (p.ref.value !in old(playlists) || old(playlists[p.ref.value].Info()) != old(p.Info())) ==>
                && pendingPlaylists == old(pendingPlaylists) + [playlists[p.ref.value]]
                && forall r :: r in old(p.songs) && (r in old(songs) || SongAnswer(net, Some(provider), r).Some?) ==>
                     r in songs
    {
      if p != null && p.ref.Some? {
        var notify := StorePlaylist(p);
        if notify {
          PrefetchAndPostPlaylist(playlists[p.ref.value], provider, net);
        }
      }
    }

    /** The cache half of `onPlaylistAddedOrUpdated`. Reports whether the
        cache changed. */
    method StorePlaylist(p: Playlist) returns (notify: bool)
      requires Valid() && p.ref.Some?
      modifies this`playlists, PlaylistFrame(p)
      ensures Valid()
      ensures p.ref.value !in old(playlists) ==> playlists == old(playlists)[p.ref.value := p] && unchanged(p) && notify
      ensures p.ref.value in old(playlists) ==>
                && playlists == old(playlists)
                && notify == (old(playlists[p.ref.value].Info()) != old(p.Info()))
                && playlists[p.ref.value].Info() == old(p.Info())
      ensures p.ref.value in old(playlists) && !notify ==> unchanged(playlists[p.ref.value])
    {
      if p.ref.value !in playlists {
        playlists := playlists[p.ref.value := p];
        notify := true;
      } else {
        var cached := playlists[p.ref.value];
        notify := cached.Info() != p.Info();
        if notify {
          OverwritePlaylist(cached, p);
        }
      }
    }

    /** The in-place update of a cached playlist: the name, then the songs
        (removed one by one from the front, then re-added in the incoming
        order), then the offline fields. */
    method OverwritePlaylist(cached: Playlist, p: Playlist)
      modifies cached
      ensures cached.Info() == old(p.Info())
    {
      var name, incoming, capable, status := p.name, p.songs, p.offlineCapable, p.offlineStatus;
      cached.name := name;
      while |cached.songs| > 0
        invariant cached.name == name
        decreases |cached.songs|
      {
        cached.RemoveSong(0);
      }
      var i := 0;
      while i < |incoming|
        invariant 0 <= i <= |incoming|
        invariant cached.name == name && cached.songs == incoming[..i]
      {
        cached.AddSong(incoming[i]);
        i := i + 1;
      }
      assert incoming[..|incoming|] == incoming;
      cached.offlineCapable := capable;
      cached.offlineStatus := status;
    }

    /** The task `onPlaylistAddedOrUpdated` hands to its executor: each song
        of the playlist is retrieved through its provider, then the playlist
        is posted. */
    method PrefetchAndPostPlaylist(cached: Playlist, provider: ProviderId, net: Net)
      requires Valid() && Bounded(net)
      modifies this`songs, this`albums, this`artists, this`pendingSongs, this`pendingAlbums,
               this`pendingArtists, this`scheduled, this`Repr, Repr, this`pendingPlaylists
      ensures Progressed()
      ensures playlists == old(playlists)
      ensures pendingPlaylists == old(pendingPlaylists) + [cached]
      ensures forall r :: r in old(cached.songs) && (r in old(songs) || SongAnswer(net, Some(provider), r).Some?) ==>
                r in songs
    {
      var refs := cached.songs;
      var i := 0;
      while i < |refs|
        invariant 0 <= i <= |refs|
        invariant Progressed()
        invariant pendingPlaylists == old(pendingPlaylists)
        invariant forall r :: r in refs[..i] && (r in old(songs) || SongAnswer(net, Some(provider), r).Some?) ==>
                    r in songs
      {
        var song := RetrieveSong(Some(refs[i]), Some(provider), net);
        i := i + 1;
      }
      assert refs[..|refs|] == refs;
      PostPlaylistForUpdate(cached);
    }

    /** `retrievePlaylist`: the cached playlist if there is one; otherwise the
        provider's answer, fed through `OnPlaylistAddedOrUpdated`. A dead
        provider's remote exception is logged and leaves the result null. */
    method RetrievePlaylist(ref: Option<string>, provider: Option<ProviderId>, net: Net) returns (r: Playlist?)
      requires Valid() && Bounded(net)
      modifies this`songs, this`albums, this`artists, this`pendingSongs, this`pendingAlbums,
               this`pendingArtists, this`scheduled, this`Repr, Repr, this`playlists, this`pendingPlaylists
      ensures Progressed()
      ensures r != null ==> ref.Some? && ref.value in playlists && playlists[ref.value] == r
      ensures r == null ==> unchanged(this) && unchanged(Repr)
      ensures ref.Some? && ref.value in old(playlists) ==> r == old(playlists[ref.value]) && unchanged(this) && unchanged(Repr)
      ensures ref.Some? && ref.value !in old(playlists) ==>
                match PlaylistAnswer(net, provider, ref.value)
                case None => r == null
                case Some(info) =>
                  && r != null && fresh(r) && r.Info() == info
                  && pendingPlaylists == old(pendingPlaylists) + [r]
    {
      if ref.None? {
        return null;
      }
      r := CachedPlaylist(ref);
      if r == null && provider.Some? && provider.value in net.endpoints {
        match net.endpoints[provider.value] {
          case Unbound =>
          case Dead =>
          case Live(binder) =>
            if ref.value in binder.playlists {
              r := new Playlist(ref, binder.playlists[ref.value]);
              OnPlaylistAddedOrUpdated(provider.value, r, net);
            }
        }
      }
    }

    // ------------------------------------------------------- search results

    method OnSearchResult(result: SearchResult?)
      requires Valid()
      modifies this`cachedSearch, this`outbox, cachedSearch
      ensures Valid()
      ensures result == null ==> cachedSearch == old(cachedSearch) && outbox == old(outbox)
      ensures result == null && cachedSearch != null ==> unchanged(cachedSearch)
      ensures result != null && (old(cachedSearch) == null || old(cachedSearch).query != result.query) ==>
                && cachedSearch == result && unchanged(result)
                && (old(cachedSearch) != null ==> unchanged(old(cachedSearch)))
      ensures result != null && old(cachedSearch) != null && old(cachedSearch).query == result.query ==>
                && cachedSearch == old(cachedSearch)
                && cachedSearch.identifier == old(result.identifier)
                && cachedSearch.songs == MergeRefs(old(cachedSearch.songs), old(result.songs))
                && cachedSearch.artists == MergeRefs(old(cachedSearch.artists), old(result.artists))
                && cachedSearch.albums == MergeRefs(old(cachedSearch.albums), old(result.albums))
                && cachedSearch.playlists == MergeRefs(old(cachedSearch.playlists), old(result.playlists))
      ensures result != null ==> outbox == old(outbox) + Broadcast(callbacks, SearchUpdated(cachedSearch))
    {
      if result == null {
        return;
      }
      if cachedSearch == null || cachedSearch.query != result.query {
        cachedSearch := result;
      } else {
        var merged := cachedSearch;
        var incomingSongs, incomingArtists := result.songs, result.artists;
        var incomingAlbums, incomingPlaylists := result.albums, result.playlists;
        merged.identifier := result.identifier;
        merged.songs := AppendMissing(merged.songs, incomingSongs);
        merged.artists := AppendMissing(merged.artists, incomingArtists);
        merged.albums := AppendMissing(merged.albums, incomingAlbums);
        merged.playlists := AppendMissing(merged.playlists, incomingPlaylists);
      }
      Notify(SearchUpdated(cachedSearch));
    }
  }
}

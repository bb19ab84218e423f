/** The records the aggregator caches. Each is an object whose fields the
    aggregator overwrites through setters, so each is a class; `Info()` is the
    value of the fields that `isIdentical` compares. The setters write exactly
    these fields, except that an album update also writes the album's
    provider, which `isIdentical` does not compare and so stays outside
    `AlbumInfo`. A record's reference is fixed at construction. */
module Entities {

  datatype Option<T> = None | Some(value: T)

  /** Identity of a provider service (its name and the service it runs in). */
  datatype ProviderId = ProviderId(name: string, service: string)

  datatype SongInfo = SongInfo(
    title: string, duration: int, year: int,
    album: Option<string>, artist: Option<string>, logo: string,
    offlineStatus: int, available: bool, isLoaded: bool)

  datatype AlbumInfo = AlbumInfo(name: string, year: int, isLoaded: bool, songs: seq<string>)

  datatype ArtistInfo = ArtistInfo(name: string, albums: set<string>, isLoaded: bool)

  datatype PlaylistInfo = PlaylistInfo(
    name: string, songs: seq<string>, offlineCapable: bool, offlineStatus: int)

  class Song {
    const ref: string
    var title: string
    var duration: int
    var year: int
    var album: Option<string>
    var artist: Option<string>
    var logo: string
    var offlineStatus: int
    var available: bool
    var isLoaded: bool
    var provider: Option<ProviderId>

    constructor (ref: string, info: SongInfo, provider: Option<ProviderId>)
      ensures this.ref == ref && Info() == info && this.provider == provider
    {
      this.ref := ref;
      title, duration, year := info.title, info.duration, info.year;
      album, artist, logo := info.album, info.artist, info.logo;
      offlineStatus, available, isLoaded := info.offlineStatus, info.available, info.isLoaded;
      this.provider := provider;
    }

    function Info(): SongInfo
      reads this
    {
      SongInfo(title, duration, year, album, artist, logo, offlineStatus, available, isLoaded)
    }
  }

  class Album {
    const ref: string
    var name: string
    var year: int
    var isLoaded: bool
    var songs: seq<string>
    var provider: Option<ProviderId>

    constructor (ref: string, info: AlbumInfo, provider: Option<ProviderId>)
      ensures this.ref == ref && Info() == info && this.provider == provider
    {
      this.ref := ref;
      name, year, isLoaded, songs := info.name, info.year, info.isLoaded, info.songs;
      this.provider := provider;
    }

    function Info(): AlbumInfo
      reads this
    {
      AlbumInfo(name, year, isLoaded, songs)
    }

    /** `addSong(ref)`: an album lists each song once. */
    method AddSong(song: string)
      modifies this`songs
      ensures songs == if song in old(songs) then old(songs) else old(songs) + [song]
    {
      if song !in songs {
        songs := songs + [song];
      }
    }
  }

  class Artist {
    const ref: string
    var name: string
    var albums: set<string>
    var isLoaded: bool

    constructor (ref: string, info: ArtistInfo)
      ensures this.ref == ref && Info() == info
    {
      this.ref := ref;
      name, albums, isLoaded := info.name, info.albums, info.isLoaded;
    }

    function Info(): ArtistInfo
      reads this
    {
      ArtistInfo(name, albums, isLoaded)
    }

    /** `addAlbum(ref)`: the artist's albums form a set. */
    method AddAlbum(album: string)
      modifies this`albums
      ensures albums == old(albums) + {album}
    {
      albums := albums + {album};
    }
  }

  /** A playlist's reference may be missing in what a provider sends. */
  class Playlist {
    const ref: Option<string>
    var name: string
    var songs: seq<string>
    var offlineCapable: bool
    var offlineStatus: int

    constructor (ref: Option<string>, info: PlaylistInfo)
      ensures this.ref == ref && Info() == info
    {
      this.ref := ref;
      name, songs := info.name, info.songs;
      offlineCapable, offlineStatus := info.offlineCapable, info.offlineStatus;
    }

    function Info(): PlaylistInfo
      reads this
    {
      PlaylistInfo(name, songs, offlineCapable, offlineStatus)
    }

    /** `removeSong(0)` and friends: drops the entry at `index`. */
    method RemoveSong(index: nat)
      requires index < |songs|
      modifies this`songs
      ensures songs == old(songs[..index] + songs[index + 1..])
    {
      songs := songs[..index] + songs[index + 1..];
    }

    /** `addSong(ref)`: appends at the end (a playlist may list a song twice). */
    method AddSong(song: string)
      modifies this`songs
      ensures songs == old(songs) + [song]
    {
      songs := songs + [song];
    }
  }

  /** The results of one search query, as a provider reports them. */
  class SearchResult {
    const query: string
    var identifier: string
    var songs: seq<string>
    var artists: seq<string>
    var albums: seq<string>
    var playlists: seq<string>

    constructor (query: string, identifier: string, songs: seq<string>,
                 artists: seq<string>, albums: seq<string>, playlists: seq<string>)
      ensures this.query == query && this.identifier == identifier
      ensures this.songs == songs && this.artists == artists
      ensures this.albums == albums && this.playlists == playlists
    {
      this.query, this.identifier := query, identifier;
      this.songs, this.artists, this.albums, this.playlists := songs, artists, albums, playlists;
    }
  }
}

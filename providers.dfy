/** What the aggregator sees of a provider service: the connection it keeps in
    its registry and the answers the provider's binder gives. A provider is an
    oracle: its binder may be missing, may be dead (every call fails with a
    remote exception), or may be live and answer each `getX(ref)` from what it
    knows, with `null` for a reference it does not know. */
module Providers {
  import opened Entities

  datatype Binder = Binder(
    songs: map<string, SongInfo>,
    albums: map<string, AlbumInfo>,
    artists: map<string, ArtistInfo>,
    playlists: map<string, PlaylistInfo>,
    rosettaPrefixes: Option<seq<string>>)

  datatype Endpoint =
    | Unbound           // getBinder() returns null: not yet connected
    | Dead              // every call throws a RemoteException
    | Live(binder: Binder)

  /** The providers the plugin lookup knows, by identity (an absent identity
      is an unknown provider), together with finite bounds on the song and
      album references any of them can answer. */
  datatype Net = Net(endpoints: map<ProviderId, Endpoint>, songRefs: set<string>, albumRefs: set<string>)

  /** Every reference a live binder answers lies within the net's bounds. */
  predicate Bounded(net: Net) {
    forall p :: p in net.endpoints && net.endpoints[p].Live? ==>
      net.endpoints[p].binder.songs.Keys <= net.songRefs
      && net.endpoints[p].binder.albums.Keys <= net.albumRefs
  }

  /** An entry of the aggregator's list of provider connections. */
  datatype Connection = Connection(id: ProviderId, endpoint: Endpoint)

  /** What `getSong(ref)` of the given provider yields: the song's fields, or
      nothing when the provider is unknown, has no binder, is dead, or answers null. */
  function SongAnswer(net: Net, provider: Option<ProviderId>, ref: string): Option<SongInfo> {
    if provider.Some? && provider.value in net.endpoints && net.endpoints[provider.value].Live?
       && ref in net.endpoints[provider.value].binder.songs
    then Some(net.endpoints[provider.value].binder.songs[ref])
    else None
  }

  function AlbumAnswer(net: Net, provider: Option<ProviderId>, ref: string): Option<AlbumInfo> {
    if provider.Some? && provider.value in net.endpoints && net.endpoints[provider.value].Live?
       && ref in net.endpoints[provider.value].binder.albums
    then Some(net.endpoints[provider.value].binder.albums[ref])
    else None
  }

  function ArtistAnswer(net: Net, provider: Option<ProviderId>, ref: string): Option<ArtistInfo> {
    if provider.Some? && provider.value in net.endpoints && net.endpoints[provider.value].Live?
       && ref in net.endpoints[provider.value].binder.artists
    then Some(net.endpoints[provider.value].binder.artists[ref])
    else None
  }

  function PlaylistAnswer(net: Net, provider: Option<ProviderId>, ref: string): Option<PlaylistInfo> {
    if provider.Some? && provider.value in net.endpoints && net.endpoints[provider.value].Live?
       && ref in net.endpoints[provider.value].binder.playlists
    then Some(net.endpoints[provider.value].binder.playlists[ref])
    else None
  }
}

/**
 * The host library's types and helpers that the plugin reads and writes: items with provider-ID maps,
 * search candidates, metadata results and image descriptions.
 */
module MediaBrowser {
  import opened Wrappers
  import opened Text

  /** An item's provider-ID dictionary: provider key to stored ID. */
  type ProviderIds = map<string, string>

  /** `GetProviderId(name)` / `ProviderIds.TryGetValue(name, out id)`: the stored value, or null. */
  function GetProviderId(ids: ProviderIds, name: string): (r: Option<string>)
    ensures r.Some? <==> name in ids
    ensures r.Some? ==> r.value == ids[name]
  {
    if name in ids then Some(ids[name]) else None
  }

  /** `SetProviderId(name, value)`: a null or empty value removes the key, any other value is stored. */
  function SetProviderId(ids: ProviderIds, name: string, value: Option<string>): (r: ProviderIds)
    ensures IsNullOrEmpty(value) ==> name !in r
    ensures !IsNullOrEmpty(value) ==> name in r && r[name] == value.value
    ensures forall k :: k != name ==> GetProviderId(r, k) == GetProviderId(ids, k)
  {
    if IsNullOrEmpty(value) then ids - {name} else ids[name := value.value]
  }

  /** A track as the host describes it to a provider. */
  datatype SongInfo = SongInfo(providerIds: ProviderIds, albumArtists: seq<string>)

  /** What the host knows about an album it asks metadata for. */
  datatype AlbumInfo = AlbumInfo(
    name: string,
    year: Option<int>,
    providerIds: ProviderIds,
    artistProviderIds: ProviderIds,
    albumArtists: seq<string>,
    songInfos: seq<SongInfo>)

  /** What the host knows about an artist it asks metadata for. */
  datatype ArtistInfo = ArtistInfo(name: string, providerIds: ProviderIds, songInfos: seq<SongInfo>)

  /** A library album item, as handed to an image provider. */
  datatype MusicAlbum = MusicAlbum(name: string, providerIds: ProviderIds)

  /** A library artist item, as handed to an image provider. */
  datatype MusicArtist = MusicArtist(name: string, providerIds: ProviderIds)

  /** A library item of any kind; image providers test its type. */
  datatype BaseItem =
    | AlbumItem(album: MusicAlbum)
    | ArtistItem(artist: MusicArtist)
    | OtherItem(name: string)

  /** A search candidate offered to the user; `albumArtist` is itself a candidate. */
  datatype RemoteSearchResult = RemoteSearchResult(
    name: Option<string>,
    productionYear: Option<int>,
    imageUrl: Option<string>,
    searchProviderName: Option<string>,
    albumArtist: Option<RemoteSearchResult>,
    providerIds: ProviderIds)

  /** `new RemoteSearchResult()`: every property unset. */
  const NewSearchResult := RemoteSearchResult(None, None, None, None, None, map[])

  datatype ImageType = Primary | Backdrop

  /** An image offered by an image provider. */
  datatype RemoteImageInfo = RemoteImageInfo(providerName: string, url: string, imageType: ImageType)

  /** The properties of a fresh `MusicAlbum` / `MusicArtist` that the plugin assigns. */
  datatype MetadataItem = MetadataItem(
    name: Option<string>,
    productionYear: Option<int>,
    externalId: Option<string>,
    overview: Option<string>,
    genres: seq<string>,
    providerIds: ProviderIds)

  /** `new MusicAlbum()` / `new MusicArtist()`: every property unset. */
  const NewItem := MetadataItem(None, None, None, None, [], map[])

  /** `MetadataResult<T>`: the flag, the item and the remote images collected for it. */
  datatype MetadataResult = MetadataResult(hasMetadata: bool, item: MetadataItem, remoteImages: seq<(string, ImageType)>)

  /** `new MetadataResult<T> { Item = new T() }`: what a resolver returns when it found nothing. */
  const NoMetadata := MetadataResult(false, NewItem, [])

  /** `item.AddGenre(name)`: appends the genre unless it is already there, ignoring letter case. */
  function AddGenre(genres: seq<string>, name: string): (r: seq<string>)
    requires name != ""
    ensures (exists i :: 0 <= i < |genres| && EqualsOrdinalIgnoreCase(genres[i], name)) ==> r == genres
    ensures (forall i :: 0 <= i < |genres| ==> !EqualsOrdinalIgnoreCase(genres[i], name)) ==> r == genres + [name]
  {
    if exists i :: 0 <= i < |genres| && EqualsOrdinalIgnoreCase(genres[i], name) then genres else genres + [name]
  }
}

/** The artist ID of a library artist item (the file and class are spelled `MusicArtistExensions`). */
module MusicArtistExensions {
  import opened Wrappers
  import opened MediaBrowser
  import Constants

  /**
   * `GetArtistId(MusicArtist)`: `TryGetValue` on "Discogs-Artist": the stored value as it is (an empty
   * string included), null when the key is absent.
   */
  function GetArtistId(artist: MusicArtist): (r: Option<string>)
    ensures r.Some? <==> Constants.ArtistKey in artist.providerIds
    ensures r.Some? ==> r.value == artist.providerIds[Constants.ArtistKey]
  {
    GetProviderId(artist.providerIds, Constants.ArtistKey)
  }

  /** A stored empty string comes back as "", not as null; other keys, the album-artist key included, are not read. */
  lemma StoredEmptyIdIsReturned(ids: ProviderIds)
    ensures GetArtistId(MusicArtist("", ids[Constants.ArtistKey := ""])) == Some("")
    ensures Constants.ArtistKey !in ids ==> GetArtistId(MusicArtist("", ids)) == None
  {
  }
}

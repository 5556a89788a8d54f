/** The release ID of a library album item (the file and class are spelled `MusicAlbumExensions`). */
module MusicAlbumExensions {
  import opened Wrappers
  import opened Text
  import opened MediaBrowser
  import AlbumInfoExtensions
  import Constants

  /** `GetReleaseId(MusicAlbum)`: exactly the album's own "Discogs-Album" entry, null when absent. */
  function GetReleaseId(album: MusicAlbum): (r: Option<string>)
    ensures r.Some? <==> Constants.AlbumKey in album.providerIds
    ensures r.Some? ==> r.value == album.providerIds[Constants.AlbumKey]
  {
    GetProviderId(album.providerIds, Constants.AlbumKey)
  }

  /** Only the "Discogs-Album" key is read: albums that agree on it agree on the result. */
  lemma ReleaseIdReadsOnlyAlbumKey(a: MusicAlbum, b: MusicAlbum)
    requires GetProviderId(a.providerIds, Constants.AlbumKey) == GetProviderId(b.providerIds, Constants.AlbumKey)
    ensures GetReleaseId(a) == GetReleaseId(b)
  {
  }

  /**
   * Unlike the `AlbumInfo` overload there is no fallback: an item without the key has no release ID,
   * whatever else it stores, while an `AlbumInfo` with the same provider IDs takes its first track's ID.
   */
  lemma NoTrackFallback(album: MusicAlbum, info: AlbumInfo)
    requires Constants.AlbumKey !in album.providerIds
    ensures GetReleaseId(album) == None
    ensures (info.providerIds == album.providerIds && |info.songInfos| > 0 &&
             !IsNullOrEmpty(AlbumInfoExtensions.SongId(info.songInfos[0], Constants.AlbumKey))) ==>
      AlbumInfoExtensions.GetReleaseId(info) == AlbumInfoExtensions.SongId(info.songInfos[0], Constants.AlbumKey)
  {
    if info.providerIds == album.providerIds && |info.songInfos| > 0 &&
      !IsNullOrEmpty(AlbumInfoExtensions.SongId(info.songInfos[0], Constants.AlbumKey))
    {
      AlbumInfoExtensions.ReleaseIdFromFirstTrack(info, 0);
    }
  }
}

/** Recovering a previously stored Discogs artist ID from an `ArtistInfo`. */
module ArtistInfoExtensions {
  import opened Wrappers
  import opened Text
  import opened MediaBrowser
  import opened AlbumInfoExtensions
  import Constants

  /**
   * `GetArtistId`: the artist's own non-empty "Discogs-Artist" ID wins outright; otherwise the first
   * non-empty "Discogs-AlbumArtist" ID among the artist's tracks, in track order; otherwise null.
   * The result is never "".
   */
  function GetArtistId(info: ArtistInfo): (r: Option<string>)
    ensures !IsNullOrEmpty(GetProviderId(info.providerIds, Constants.ArtistKey)) ==>
      r == Some(info.providerIds[Constants.ArtistKey])
    ensures IsNullOrEmpty(GetProviderId(info.providerIds, Constants.ArtistKey)) ==>
      IsFirstSongId(info.songInfos, Constants.AlbumArtistKey, r)
    ensures r.Some? ==> r.value != ""
  {
    var id := GetProviderId(info.providerIds, Constants.ArtistKey);
    if IsNullOrEmpty(id) then FirstSongId(info.songInfos, Constants.AlbumArtistKey) else id
  }

  /** With its own ID set, the artist's tracks are ignored. */
  lemma ArtistIdIgnoresTracksWhenOwnIdSet(info: ArtistInfo, songs: seq<SongInfo>)
    requires !IsNullOrEmpty(GetProviderId(info.providerIds, Constants.ArtistKey))
    ensures GetArtistId(info.(songInfos := songs)) == GetArtistId(info)
  {
  }

  /** With no own ID and no track carrying an album-artist ID, there is no artist ID. */
  lemma ArtistIdAbsent(info: ArtistInfo)
    requires IsNullOrEmpty(GetProviderId(info.providerIds, Constants.ArtistKey))
    requires forall i :: 0 <= i < |info.songInfos| ==> IsNullOrEmpty(SongId(info.songInfos[i], Constants.AlbumArtistKey))
    ensures GetArtistId(info) == None
  {
  }

  /**
   * The track fallback follows "Discogs-AlbumArtist", not "Discogs-Artist": whatever a track stores under
   * "Discogs-Artist" leaves the ID unchanged, while a non-empty "Discogs-AlbumArtist" ID on a track with no
   * such ID before it becomes the ID of an artist without its own.
   */
  lemma TrackFallbackReadsAlbumArtistKey(info: ArtistInfo, k: nat, v: string)
    requires k < |info.songInfos|
    ensures GetArtistId(info.(songInfos := SetSongId(info.songInfos, k, Constants.ArtistKey, v))) == GetArtistId(info)
    ensures (v != "" && IsNullOrEmpty(GetProviderId(info.providerIds, Constants.ArtistKey)) &&
             (forall j :: 0 <= j < k ==> IsNullOrEmpty(SongId(info.songInfos[j], Constants.AlbumArtistKey)))) ==>
      GetArtistId(info.(songInfos := SetSongId(info.songInfos, k, Constants.AlbumArtistKey, v))) == Some(v)
  {
    Constants.KeysDistinct();
    FirstSongIdReadsOnlyKey(SetSongId(info.songInfos, k, Constants.ArtistKey, v), info.songInfos, Constants.AlbumArtistKey);
    var songs := SetSongId(info.songInfos, k, Constants.AlbumArtistKey, v);
    if v != "" && IsNullOrEmpty(GetProviderId(info.providerIds, Constants.ArtistKey)) &&
      (forall j :: 0 <= j < k ==> IsNullOrEmpty(SongId(info.songInfos[j], Constants.AlbumArtistKey)))
    {
      assert IsFirstSongIndex(songs, Constants.AlbumArtistKey, k, Some(v));
      IsFirstSongIdUnique(songs, Constants.AlbumArtistKey, GetArtistId(info.(songInfos := songs)), Some(v));
    }
  }
}

/** The plugin's name and the provider-ID keys it stores on media items. */
module Constants {

  /** The provider name; also the ProviderName of every image the plugin offers. */
  const Name: string := "Discogs"

  const BaseProviderId: string := "Discogs-"

  /** Key of a Discogs release ID. */
  const AlbumKey: string := BaseProviderId + "Album"
  /** Key of a Discogs master-release ID. */
  const AlbumMasterKey: string := BaseProviderId + "AlbumMaster"
  /** Key of a Discogs artist ID on an artist (or a search candidate's artist). */
  const ArtistKey: string := BaseProviderId + "Artist"
  /** Key of a Discogs artist ID stored on an album or a track. */
  const AlbumArtistKey: string := BaseProviderId + "AlbumArtist"

  /** Every key is the common prefix followed by a non-empty suffix. */
  lemma KeysExtendBase()
    ensures forall k :: k in {AlbumKey, AlbumMasterKey, ArtistKey, AlbumArtistKey} ==>
      |k| > |BaseProviderId| && k[..|BaseProviderId|] == BaseProviderId
  {
  }

  /** The four keys are pairwise distinct, so setting one provider ID never overwrites another. */
  lemma KeysDistinct()
    ensures AlbumKey != AlbumMasterKey && AlbumKey != ArtistKey && AlbumKey != AlbumArtistKey
    ensures AlbumMasterKey != ArtistKey && AlbumMasterKey != AlbumArtistKey
    ensures ArtistKey != AlbumArtistKey
  {
    assert |AlbumKey| == 13 && |ArtistKey| == 14 && |AlbumMasterKey| == 19 && |AlbumArtistKey| == 19;
    assert AlbumMasterKey[13] == 'M' && AlbumArtistKey[13] == 'A';
  }
}

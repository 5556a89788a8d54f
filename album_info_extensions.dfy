/** Recovering previously stored Discogs IDs and the album artist's name from an `AlbumInfo`. */
module AlbumInfoExtensions {
  import opened Wrappers
  import opened Text
  import opened MediaBrowser
  import Constants

  /** `song.GetProviderId(key)`. */
  function SongId(song: SongInfo, key: string): Option<string> {
    GetProviderId(song.providerIds, key)
  }

  /**
   * r is the first non-empty ID stored under key by the songs: null when no song has a non-empty value
   * under key, otherwise the value of the first song (in song order) that has one.
   */
  ghost predicate IsFirstSongId(songs: seq<SongInfo>, key: string, r: Option<string>) {
    match r
    case None => forall i :: 0 <= i < |songs| ==> IsNullOrEmpty(SongId(songs[i], key))
    case Some(v) => v != "" && exists i :: IsFirstSongIndex(songs, key, i, r)
  }

  /** Song i stores r under key and no song before it stores a non-empty value there. */
  ghost predicate IsFirstSongIndex(songs: seq<SongInfo>, key: string, i: int, r: Option<string>) {
    0 <= i < |songs| && SongId(songs[i], key) == r &&
    forall j :: 0 <= j < i ==> IsNullOrEmpty(SongId(songs[j], key))
  }

  /** At most one value is the first non-empty song ID. */
  lemma IsFirstSongIdUnique(songs: seq<SongInfo>, key: string, r1: Option<string>, r2: Option<string>)
    requires IsFirstSongId(songs, key, r1) && IsFirstSongId(songs, key, r2)
    ensures r1 == r2
  {
    if r1.Some? && r2.Some? {
      var i1 :| IsFirstSongIndex(songs, key, i1, r1);
      var i2 :| IsFirstSongIndex(songs, key, i2, r2);
      assert !(i1 < i2) && !(i2 < i1);
    }
  }

  /** The first non-empty ID stored under key by the songs, in song order. */
  function FirstSongId(songs: seq<SongInfo>, key: string): (r: Option<string>)
    ensures IsFirstSongId(songs, key, r)
  {
    if |songs| == 0 then None
    else if !IsNullOrEmpty(SongId(songs[0], key)) then
      assert IsFirstSongIndex(songs, key, 0, SongId(songs[0], key));
      SongId(songs[0], key)
    else
      var r := FirstSongId(songs[1..], key);
      assert r.Some? ==> IsFirstSongId(songs, key, r) by {
        if r.Some? {
          var i :| IsFirstSongIndex(songs[1..], key, i, r);
          assert IsFirstSongIndex(songs, key, i + 1, r);
        }
      }
      r
  }

  /** The album-artist names of all the tracks, one track after another, in track order. */
  function FlattenAlbumArtists(songs: seq<SongInfo>): (names: seq<string>)
  {
    if |songs| == 0 then [] else songs[0].albumArtists + FlattenAlbumArtists(songs[1..])
  }

  /** A name occurs in the flattened list exactly when some track lists it. */
  lemma {:induction false} FlattenAlbumArtistsMembers(songs: seq<SongInfo>, name: string)
    ensures name in FlattenAlbumArtists(songs) <==> exists i :: 0 <= i < |songs| && name in songs[i].albumArtists
  {
    if |songs| > 0 {
      FlattenAlbumArtistsMembers(songs[1..], name);
      if name in FlattenAlbumArtists(songs[1..]) {
        var i :| 0 <= i < |songs[1..]| && name in songs[1..][i].albumArtists;
        assert name in songs[i + 1].albumArtists;
      }
      if exists i :: 0 <= i < |songs| && name in songs[i].albumArtists {
        var i :| 0 <= i < |songs| && name in songs[i].albumArtists;
        if i > 0 {
          assert name in songs[1..][i - 1].albumArtists;
        }
      }
    }
  }

  /** Every name in the list is empty. */
  ghost predicate AllEmpty(names: seq<string>) {
    forall k :: 0 <= k < |names| ==> names[k] == ""
  }

  /** v is a non-empty name of the list and every name before it is empty. */
  ghost predicate IsFirstNonEmpty(names: seq<string>, v: string) {
    v != "" && exists k :: IsNameIndex(names, k, v)
  }

  /** names[k] is v and every name before it is empty. */
  ghost predicate IsNameIndex(names: seq<string>, k: int, v: string) {
    0 <= k < |names| && names[k] == v && forall j :: 0 <= j < k ==> names[j] == ""
  }

  /** The first non-empty name of the list, or null when every name is empty. */
  function FirstNonEmpty(names: seq<string>): (r: Option<string>)
    ensures r.None? <==> AllEmpty(names)
    ensures r.Some? ==> IsFirstNonEmpty(names, r.value)
  {
    if |names| == 0 then None
    else if names[0] != "" then
      assert IsNameIndex(names, 0, names[0]);
      Some(names[0])
    else
      var r := FirstNonEmpty(names[1..]);
      assert r.Some? ==> IsFirstNonEmpty(names, r.value) by {
        if r.Some? {
          var k :| IsNameIndex(names[1..], k, r.value);
          assert IsNameIndex(names, k + 1, r.value);
        }
      }
      r
  }

  /**
   * `GetAlbumArtist`: the first non-empty artist name of the tracks (flattened in track order);
   * failing that the album's first listed artist, or "" when it lists none.
   */
  function GetAlbumArtist(info: AlbumInfo): (r: string)
    ensures !AllEmpty(FlattenAlbumArtists(info.songInfos)) ==> IsFirstNonEmpty(FlattenAlbumArtists(info.songInfos), r)
    ensures AllEmpty(FlattenAlbumArtists(info.songInfos)) ==>
      r == (if |info.albumArtists| > 0 then info.albumArtists[0] else "")
  {
    var id := FirstNonEmpty(FlattenAlbumArtists(info.songInfos));
    if !IsNullOrEmpty(id) then id.value
    else if |info.albumArtists| > 0 then info.albumArtists[0]
    else ""
  }

  /** When some track names an album artist, the album artist is a non-empty name one of the tracks lists. */
  lemma AlbumArtistComesFromATrack(info: AlbumInfo)
    requires !AllEmpty(FlattenAlbumArtists(info.songInfos))
    ensures GetAlbumArtist(info) != ""
    ensures exists i :: 0 <= i < |info.songInfos| && GetAlbumArtist(info) in info.songInfos[i].albumArtists
  {
    var names := FlattenAlbumArtists(info.songInfos);
    var k :| IsNameIndex(names, k, GetAlbumArtist(info));
    assert GetAlbumArtist(info) in names;
    FlattenAlbumArtistsMembers(info.songInfos, GetAlbumArtist(info));
  }

  /**
   * `GetReleaseId`: the album's own non-empty "Discogs-Album" ID wins outright; otherwise the first
   * non-empty track ID under that key; otherwise null. The result is never "".
   */
  function GetReleaseId(info: AlbumInfo): (r: Option<string>)
    ensures !IsNullOrEmpty(GetProviderId(info.providerIds, Constants.AlbumKey)) ==>
      r == Some(info.providerIds[Constants.AlbumKey])
    ensures IsNullOrEmpty(GetProviderId(info.providerIds, Constants.AlbumKey)) ==>
      IsFirstSongId(info.songInfos, Constants.AlbumKey, r)
    ensures r.Some? ==> r.value != ""
  {
    var id := GetProviderId(info.providerIds, Constants.AlbumKey);
    if IsNullOrEmpty(id) then FirstSongId(info.songInfos, Constants.AlbumKey) else id
  }

  /** `GetReleaseMasterId`: the album's own "Discogs-AlbumMaster" entry as stored; tracks are not read. */
  function GetReleaseMasterId(info: AlbumInfo): (r: Option<string>)
    ensures r.Some? <==> Constants.AlbumMasterKey in info.providerIds
    ensures r.Some? ==> r.value == info.providerIds[Constants.AlbumMasterKey]
  {
    GetProviderId(info.providerIds, Constants.AlbumMasterKey)
  }

  /**
   * `GetDiscogsArtistId`: the album's own non-empty "Discogs-AlbumArtist" ID, else the parent
   * artist's non-empty "Discogs-Artist" ID, else the first non-empty track "Discogs-AlbumArtist" ID,
   * else null. The result is never "".
   */
  function GetDiscogsArtistId(info: AlbumInfo): (r: Option<string>)
    ensures !IsNullOrEmpty(GetProviderId(info.providerIds, Constants.AlbumArtistKey)) ==>
      r == Some(info.providerIds[Constants.AlbumArtistKey])
    ensures (IsNullOrEmpty(GetProviderId(info.providerIds, Constants.AlbumArtistKey)) &&
             !IsNullOrEmpty(GetProviderId(info.artistProviderIds, Constants.ArtistKey))) ==>
      r == Some(info.artistProviderIds[Constants.ArtistKey])
    ensures (IsNullOrEmpty(GetProviderId(info.providerIds, Constants.AlbumArtistKey)) &&
             IsNullOrEmpty(GetProviderId(info.artistProviderIds, Constants.ArtistKey))) ==>
      IsFirstSongId(info.songInfos, Constants.AlbumArtistKey, r)
    ensures r.Some? ==> r.value != ""
  {
    var id := GetProviderId(info.providerIds, Constants.AlbumArtistKey);
    var id' := if IsNullOrEmpty(id) then GetProviderId(info.artistProviderIds, Constants.ArtistKey) else id;
    if IsNullOrEmpty(id') then FirstSongId(info.songInfos, Constants.AlbumArtistKey) else id'
  }

  /** With its own release ID set, an album's tracks are ignored: any other track list gives the same ID. */
  lemma ReleaseIdIgnoresTracksWhenOwnIdSet(info: AlbumInfo, songs: seq<SongInfo>)
    requires !IsNullOrEmpty(GetProviderId(info.providerIds, Constants.AlbumKey))
    ensures GetReleaseId(info.(songInfos := songs)) == GetReleaseId(info)
  {
  }

  /** Without its own release ID, an album whose k-th track is the first to carry one gets that track's ID. */
  lemma ReleaseIdFromFirstTrack(info: AlbumInfo, k: nat)
    requires IsNullOrEmpty(GetProviderId(info.providerIds, Constants.AlbumKey))
    requires k < |info.songInfos| && !IsNullOrEmpty(SongId(info.songInfos[k], Constants.AlbumKey))
    requires forall j :: 0 <= j < k ==> IsNullOrEmpty(SongId(info.songInfos[j], Constants.AlbumKey))
    ensures GetReleaseId(info) == SongId(info.songInfos[k], Constants.AlbumKey)
  {
    var r := GetReleaseId(info);
    var i :| IsFirstSongIndex(info.songInfos, Constants.AlbumKey, i, r);
    assert !(i < k) && !(k < i);
  }

  /** The master ID depends on the album's own provider IDs alone: tracks and the parent are never read. */
  lemma MasterIdReadsOnlyOwnIds(a: AlbumInfo, b: AlbumInfo)
    requires GetProviderId(a.providerIds, Constants.AlbumMasterKey) == GetProviderId(b.providerIds, Constants.AlbumMasterKey)
    ensures GetReleaseMasterId(a) == GetReleaseMasterId(b)
  {
  }

  /** The parent artist's ID outranks every track ID, and the album's own ID outranks the parent's. */
  lemma DiscogsArtistIdPrecedence(info: AlbumInfo, songs: seq<SongInfo>, parent: ProviderIds)
    ensures !IsNullOrEmpty(GetProviderId(info.artistProviderIds, Constants.ArtistKey)) ==>
      GetDiscogsArtistId(info.(songInfos := songs)) == GetDiscogsArtistId(info)
    ensures !IsNullOrEmpty(GetProviderId(info.providerIds, Constants.AlbumArtistKey)) ==>
      GetDiscogsArtistId(info.(artistProviderIds := parent)) == GetDiscogsArtistId(info)
  {
  }

  /** The songs with song k's entry under key set to v. */
  function SetSongId(songs: seq<SongInfo>, k: nat, key: string, v: string): (r: seq<SongInfo>)
    requires k < |songs|
    ensures |r| == |songs| && r[k].providerIds == songs[k].providerIds[key := v]
    ensures forall i :: 0 <= i < |songs| && i != k ==> r[i] == songs[i]
  {
    songs[k := songs[k].(providerIds := songs[k].providerIds[key := v])]
  }

  /** Songs that agree, position by position, on their IDs under key have the same first song ID. */
  lemma FirstSongIdReadsOnlyKey(a: seq<SongInfo>, b: seq<SongInfo>, key: string)
    requires |a| == |b| && forall i :: 0 <= i < |a| ==> SongId(a[i], key) == SongId(b[i], key)
    ensures FirstSongId(a, key) == FirstSongId(b, key)
  {
    var r := FirstSongId(a, key);
    if r.Some? {
      var i :| IsFirstSongIndex(a, key, i, r);
      assert IsFirstSongIndex(b, key, i, r);
    }
    IsFirstSongIdUnique(b, key, r, FirstSongId(b, key));
  }

  /**
   * A track's "Discogs-Artist" entry is never followed: whatever any one track stores under that key,
   * the album artist's ID is the same; a lone track carrying only that key gives no ID at all.
   */
  lemma TrackArtistKeyIsNotFollowed(info: AlbumInfo, k: nat, v: string)
    requires k < |info.songInfos|
    ensures GetDiscogsArtistId(info.(songInfos := SetSongId(info.songInfos, k, Constants.ArtistKey, v))) ==
      GetDiscogsArtistId(info)
    ensures GetDiscogsArtistId(AlbumInfo("", None, map[], map[], [], [SongInfo(map[Constants.ArtistKey := v], [])])) == None
  {
    Constants.KeysDistinct();
    var songs := SetSongId(info.songInfos, k, Constants.ArtistKey, v);
    FirstSongIdReadsOnlyKey(songs, info.songInfos, Constants.AlbumArtistKey);
  }
}

/**
 * The album resolver: search candidates for an album, its canonical metadata through the
 * master / release / artist-listing fallback chain, and its images.
 */
module AlbumProvider {
  import opened Wrappers
  import opened Text
  import opened MediaBrowser
  import opened DiscogsClient
  import opened AlbumInfoExtensions
  import MusicAlbumExensions
  import RemoteImages
  import Constants

  // ---------------------------------------------------------------------------------------------
  // Search

  /** The nested artist candidate: taken from the release's first artist, when it lists any. */
  function ArtistCandidate(release: Release): Option<RemoteSearchResult> {
    if |release.artists| > 0 then
      Some(NewSearchResult.(
        searchProviderName := Some(Constants.Name),
        name := Some(release.artists[0].name),
        providerIds := SetProviderId(map[], Constants.ArtistKey, Some(NatToString(release.artists[0].id)))))
    else None
  }

  /**
   * The candidate made from a fetched release. The direct-ID search stores the master ID whatever
   * it is (`alwaysSetMaster`), the query search only when it is not 0.
   */
  function ReleaseCandidate(release: Release, alwaysSetMaster: bool): (r: RemoteSearchResult)
    ensures r.name == Some(release.title) && r.productionYear == Some(release.year) && r.imageUrl == Some(release.thumb)
    ensures r.searchProviderName == None
    ensures r.providerIds.Keys ==
      if alwaysSetMaster || release.masterId != 0 then {Constants.AlbumKey, Constants.AlbumMasterKey} else {Constants.AlbumKey}
    ensures r.providerIds[Constants.AlbumKey] == NatToString(release.id)
    ensures Constants.AlbumMasterKey in r.providerIds ==> r.providerIds[Constants.AlbumMasterKey] == NatToString(release.masterId)
    ensures r.albumArtist.Some? <==> |release.artists| > 0
    ensures r.albumArtist.Some? ==>
      r.albumArtist.value.name == Some(release.artists[0].name) &&
      r.albumArtist.value.searchProviderName == Some("Discogs") &&
      r.albumArtist.value.providerIds == map[Constants.ArtistKey := NatToString(release.artists[0].id)]
  {
    Constants.KeysDistinct();
    var ids := SetProviderId(map[], Constants.AlbumKey, Some(NatToString(release.id)));
    var ids' := if alwaysSetMaster || release.masterId != 0
      then SetProviderId(ids, Constants.AlbumMasterKey, Some(NatToString(release.masterId))) else ids;
    NewSearchResult.(
      name := Some(release.title),
      productionYear := Some(release.year),
      imageUrl := Some(release.thumb),
      albumArtist := ArtistCandidate(release),
      providerIds := ids')
  }

  /** The structured query of a search by name: a release search on the title, artist and year when known. */
  function AlbumSearchQuery(info: AlbumInfo): SearchQuery {
    var artist := GetAlbumArtist(info);
    SearchQuery(ReleaseEntity, None, Some(info.name), if artist != "" then Some(artist) else None, info.year)
  }

  /** The candidates produced for one search result: one if its release can be fetched, none otherwise. */
  function CandidatesFor(c: Catalog, result: SearchResult): seq<RemoteSearchResult> {
    match c.Release(result.id)
    case Some(release) => [ReleaseCandidate(release, false)]
    case None => []
  }

  /** The candidates for a list of search results, in the order of the results. */
  function QueryCandidates(c: Catalog, results: seq<SearchResult>): seq<RemoteSearchResult> {
    if |results| == 0 then [] else CandidatesFor(c, results[0]) + QueryCandidates(c, results[1..])
  }

  /** One release fetch per search result, in order. */
  function ResultFetches(results: seq<SearchResult>): (calls: seq<Call>)
    ensures |calls| == |results| && forall i :: 0 <= i < |results| ==> calls[i] == GetReleaseCall(results[i].id)
  {
    seq(|results|, i requires 0 <= i < |results| => GetReleaseCall(results[i].id))
  }

  /** The direct-ID search: fetch the one release and make it the only candidate. */
  function SearchById(c: Catalog, id: nat): Resolution<seq<RemoteSearchResult>> {
    var found := match c.Release(id) case Some(release) => [ReleaseCandidate(release, true)] case None => [];
    Resolution(Returned(found), [GetReleaseCall(id)])
  }

  /** The search by name: one query, then one release fetch per result. */
  function SearchByQuery(c: Catalog, query: SearchQuery): Resolution<seq<RemoteSearchResult>> {
    match c.search(query)
    case None => Resolution(Returned([]), [SearchCall(query)])
    case Some(page) =>
      match page.results
      case None => Resolution(Threw(NullReferenceException), [SearchCall(query)])
      case Some(results) => Resolution(Returned(QueryCandidates(c, results)), [SearchCall(query)] + ResultFetches(results))
  }

  /** What `GetSearchResults` returns for an album and which requests it makes. */
  function AlbumSearch(c: Catalog, info: AlbumInfo): Resolution<seq<RemoteSearchResult>> {
    var releaseId := GetReleaseId(info);
    if !IsNullOrEmpty(releaseId) then
      match ParseInt32(releaseId.value)
      case Threw(e) => Resolution(Threw(e), [])
      case Returned(id) => SearchById(c, id)
    else SearchByQuery(c, AlbumSearchQuery(info))
  }

  /** Candidates of concatenated result lists are the concatenated candidates: order is kept. */
  lemma {:induction false} QueryCandidatesAppend(c: Catalog, a: seq<SearchResult>, b: seq<SearchResult>)
    ensures QueryCandidates(c, a + b) == QueryCandidates(c, a) + QueryCandidates(c, b)
  {
    if |a| == 0 {
      assert a + b == b;
    } else {
      assert (a + b)[0] == a[0];
      assert (a + b)[1..] == a[1..] + b;
      QueryCandidatesAppend(c, a[1..], b);
    }
  }

  /** There are never more candidates than results, and exactly one per result when every fetch succeeds. */
  lemma {:induction false} QueryCandidatesCount(c: Catalog, results: seq<SearchResult>)
    ensures |QueryCandidates(c, results)| <= |results|
    ensures (forall i :: 0 <= i < |results| ==> c.Release(results[i].id).Some?) ==>
      QueryCandidates(c, results) ==
        seq(|results|, i requires 0 <= i < |results| => ReleaseCandidate(c.Release(results[i].id).value, false))
  {
    if |results| > 0 {
      QueryCandidatesCount(c, results[1..]);
    }
  }

  /** A result whose release cannot be fetched is skipped; the others keep their relative order. */
  lemma QueryCandidatesSkipFailedFetch(c: Catalog, results: seq<SearchResult>, i: nat)
    requires i < |results| && c.Release(results[i].id).None?
    ensures QueryCandidates(c, results) == QueryCandidates(c, results[..i]) + QueryCandidates(c, results[i + 1..])
  {
    var prefix, rest := results[..i], [results[i]] + results[i + 1..];
    assert results == prefix + rest;
    QueryCandidatesAppend(c, prefix, rest);
    assert rest[0] == results[i] && rest[1..] == results[i + 1..];
    assert QueryCandidates(c, rest) == QueryCandidates(c, results[i + 1..]);
  }

  /** Three results whose second release fetch fails give the first and third candidates, in that order. */
  lemma SecondOfThreeFetchesFails(c: Catalog, r1: SearchResult, r2: SearchResult, r3: SearchResult)
    requires c.Release(r1.id).Some? && c.Release(r2.id).None? && c.Release(r3.id).Some?
    ensures QueryCandidates(c, [r1, r2, r3]) ==
      [ReleaseCandidate(c.Release(r1.id).value, false), ReleaseCandidate(c.Release(r3.id).value, false)]
  {
    assert [r1, r2, r3][1..] == [r2, r3];
    assert [r2, r3][1..] == [r3];
    assert [r3][1..] == [];
    assert QueryCandidates(c, [r3]) == CandidatesFor(c, r3);
    assert QueryCandidates(c, [r2, r3]) == CandidatesFor(c, r3);
  }

  /**
   * With a release ID the search makes exactly one release fetch and no search; the outcome holds one
   * candidate when the fetch succeeds (with the master ID stored even when it is 0) and none otherwise.
   */
  lemma SearchWithReleaseId(c: Catalog, info: AlbumInfo, id: nat)
    requires GetReleaseId(info).Some? && ParseInt32(GetReleaseId(info).value) == Returned(id)
    ensures AlbumSearch(c, info).calls == [GetReleaseCall(id)]
    ensures c.Release(id).None? ==> AlbumSearch(c, info).outcome == Returned([])
    ensures c.Release(id).Some? ==> AlbumSearch(c, info).outcome == Returned([ReleaseCandidate(c.Release(id).value, true)])
    ensures c.Release(id).Some? ==> Constants.AlbumMasterKey in AlbumSearch(c, info).outcome.value[0].providerIds
  {
  }

  /**
   * A stored release ID that `int.Parse` rejects raises its exception before any request is made:
   * FormatException for a string that is not a number, OverflowException for a number above
   * Int32.MaxValue.
   */
  lemma UnparseableReleaseIdThrows(c: Catalog, info: AlbumInfo)
    requires GetReleaseId(info).Some? && ParseInt32(GetReleaseId(info).value).Threw?
    ensures AlbumSearch(c, info).calls == []
    ensures !IsDigits(GetReleaseId(info).value) ==> AlbumSearch(c, info).outcome == Threw(FormatException)
    ensures forall n: nat :: n > MaxInt32 && GetReleaseId(info).value == NatToString(n) ==>
      AlbumSearch(c, info).outcome == Threw(OverflowException)
  {
    forall n: nat | n > MaxInt32 && GetReleaseId(info).value == NatToString(n)
      ensures AlbumSearch(c, info).outcome == Threw(OverflowException)
    {
      ParseInt32OverflowOfNatToString(n);
    }
  }

  /**
   * Without a release ID the search sends one release query on the album name (with the artist only
   * when one is known, and the year only when given), then one release fetch per result in order; a
   * null response gives no candidates.
   */
  lemma SearchWithoutReleaseId(c: Catalog, info: AlbumInfo)
    requires GetReleaseId(info).None?
    ensures var q := AlbumSearch(c, info).calls[0].query;
      AlbumSearch(c, info).calls[0].SearchCall? &&
      q.entityType == ReleaseEntity && q.releaseTitle == Some(info.name) && q.year == info.year &&
      (q.artist.Some? <==> GetAlbumArtist(info) != "") &&
      (q.artist.Some? ==> q.artist.value == GetAlbumArtist(info))
    ensures c.search(AlbumSearchQuery(info)).None? ==>
      AlbumSearch(c, info) == Resolution(Returned([]), [SearchCall(AlbumSearchQuery(info))])
    ensures forall page :: c.search(AlbumSearchQuery(info)) == Some(page) && page.results.Some? ==>
      AlbumSearch(c, info).calls[1..] == ResultFetches(page.results.value) &&
      |AlbumSearch(c, info).outcome.value| <= |page.results.value|
  {
    forall page | c.search(AlbumSearchQuery(info)) == Some(page) && page.results.Some?
      ensures AlbumSearch(c, info).calls[1..] == ResultFetches(page.results.value)
      ensures |AlbumSearch(c, info).outcome.value| <= |page.results.value|
    {
      QueryCandidatesCount(c, page.results.value);
    }
  }

  // ---------------------------------------------------------------------------------------------
  // Metadata

  /** The master ID as `GetMetadata` uses it: a stored "0" counts as no master. */
  function EffectiveMasterId(info: AlbumInfo): (r: Option<string>)
    ensures GetReleaseMasterId(info) == Some("0") ==> r.None?
    ensures GetReleaseMasterId(info) != Some("0") ==> r == GetReleaseMasterId(info)
  {
    var m := GetReleaseMasterId(info);
    if m == Some("0") then None else m
  }

  /** Step 1: the master's main release, when a master ID is known and both fetches succeed. */
  function ViaMaster(c: Catalog, masterId: Option<string>): Resolution<Option<Release>> {
    if IsNullOrEmpty(masterId) then Resolution(Returned(None), [])
    else
      match ParseInt32(masterId.value)
      case Threw(e) => Resolution(Threw(e), [])
      case Returned(m) =>
        match c.Master(m)
        case None => Resolution(Returned(None), [GetMasterCall(m)])
        case Some(master) =>
          Resolution(Returned(c.Release(master.mainRelease)), [GetMasterCall(m), GetReleaseCall(master.mainRelease)])
  }

  /** Step 2: the release with the known release ID. */
  function ViaReleaseId(c: Catalog, releaseId: string): Resolution<Option<Release>> {
    match ParseInt32(releaseId)
    case Threw(e) => Resolution(Threw(e), [])
    case Returned(id) => Resolution(Returned(c.Release(id)), [GetReleaseCall(id)])
  }

  /** The first listing entry whose title equals the album name up to letter case, or null when none does. */
  function FirstTitleMatch(releases: seq<ArtistRelease>, name: string): (r: Option<ArtistRelease>)
    ensures r.None? <==> forall i :: 0 <= i < |releases| ==> !EqualsOrdinalIgnoreCase(releases[i].title, name)
    ensures r.Some? ==> exists i :: IsFirstTitleMatch(releases, name, i) && releases[i] == r.value
  {
    if |releases| == 0 then None
    else if EqualsOrdinalIgnoreCase(releases[0].title, name) then
      assert IsFirstTitleMatch(releases, name, 0);
      Some(releases[0])
    else
      var r := FirstTitleMatch(releases[1..], name);
      assert r.Some? ==> exists i :: IsFirstTitleMatch(releases, name, i) && releases[i] == r.value by {
        if r.Some? {
          var i :| IsFirstTitleMatch(releases[1..], name, i) && releases[1..][i] == r.value;
          assert IsFirstTitleMatch(releases, name, i + 1);
        }
      }
      r
  }

  /**
   * A title match forgives letter case only: the matched title has the album name's length and the
   * same digit wherever either of them holds one.
   */
  lemma TitleMatchKeepsLengthAndDigits(releases: seq<ArtistRelease>, name: string, i: nat)
    requires FirstTitleMatch(releases, name).Some?
    ensures var t := FirstTitleMatch(releases, name).value.title;
      |t| == |name| && (i < |t| && (IsDigit(t[i]) || IsDigit(name[i])) ==> t[i] == name[i])
  {
    var k :| IsFirstTitleMatch(releases, name, k) && releases[k] == FirstTitleMatch(releases, name).value;
    IgnoreCaseSeesDigits(releases[k].title, name, i);
  }

  /** Entry i is the first whose title equals name, ignoring case. */
  ghost predicate IsFirstTitleMatch(releases: seq<ArtistRelease>, name: string, i: int) {
    0 <= i < |releases| && EqualsOrdinalIgnoreCase(releases[i].title, name) &&
    forall j :: 0 <= j < i ==> !EqualsOrdinalIgnoreCase(releases[j].title, name)
  }

  /** Step 3: the main release of the artist's first listed release titled like the album. */
  function ViaArtistReleases(c: Catalog, artistId: Option<string>, name: string): Resolution<Option<Release>> {
    if IsNullOrEmpty(artistId) then Resolution(Returned(None), [])
    else
      match ParseInt32(artistId.value)
      case Threw(e) => Resolution(Threw(e), [])
      case Returned(a) =>
        var listed := [GetArtistReleaseCall(a)];
        match c.ArtistReleaseListing(a)
        case None => Resolution(Returned(None), listed)
        case Some(listing) =>
          match listing.releases
          case None => Resolution(Returned(None), listed)
          case Some(releases) =>
            match FirstTitleMatch(releases, name)
            case None => Resolution(Returned(None), listed)
            case Some(entry) => Resolution(Returned(c.Release(entry.mainRelease)), listed + [GetReleaseCall(entry.mainRelease)])
  }

  /**
   * The release `GetMetadata` settles on: the master path first; when it yields nothing, the release ID
   * if one is known, otherwise the artist listing.
   */
  function ResolveRelease(c: Catalog, info: AlbumInfo): Resolution<Option<Release>> {
    var master := ViaMaster(c, EffectiveMasterId(info));
    if master.outcome.Threw? || master.outcome.value.Some? then master
    else
      var releaseId := GetReleaseId(info);
      var rest := if !IsNullOrEmpty(releaseId) then ViaReleaseId(c, releaseId.value)
        else ViaArtistReleases(c, GetDiscogsArtistId(info), info.name);
      Resolution(rest.outcome, master.calls + rest.calls)
  }

  /** The genre loop: each non-empty genre in turn is added with `AddGenre`. */
  function AddGenres(genres: seq<string>): seq<string> {
    if |genres| == 0 then []
    else
      var previous := AddGenres(genres[..|genres| - 1]);
      var genre := genres[|genres| - 1];
      if genre != "" then AddGenre(previous, genre) else previous
  }

  /** Every genre on the item is a non-empty genre of the release. */
  lemma {:induction false} AddGenresFromRelease(genres: seq<string>)
    ensures forall g :: g in AddGenres(genres) ==> g != "" && g in genres
  {
    if |genres| > 0 {
      var init := genres[..|genres| - 1];
      AddGenresFromRelease(init);
      assert genres == init + [genres[|genres| - 1]];
    }
  }

  /** Every non-empty genre of the release is on the item, up to letter case. */
  lemma {:induction false} AddGenresCoversRelease(genres: seq<string>)
    ensures forall g :: g in genres && g != "" ==> exists x :: x in AddGenres(genres) && EqualsOrdinalIgnoreCase(x, g)
  {
    if |genres| > 0 {
      var init := genres[..|genres| - 1];
      var genre := genres[|genres| - 1];
      AddGenresCoversRelease(init);
      assert genres == init + [genre];
      var previous := AddGenres(init);
      var r := AddGenres(genres);
      assert forall x :: x in previous ==> x in r;
      if genre != "" && !(exists i :: 0 <= i < |previous| && EqualsOrdinalIgnoreCase(previous[i], genre)) {
        EqualsOrdinalIgnoreCaseIsEquivalence(genre, genre, genre);
        assert genre in r;
      }
      forall g | g in genres && g != ""
        ensures exists x :: x in r && EqualsOrdinalIgnoreCase(x, g)
      {
        if g !in init {
          assert g == genre;
          if exists i :: 0 <= i < |previous| && EqualsOrdinalIgnoreCase(previous[i], genre) {
            var i :| 0 <= i < |previous| && EqualsOrdinalIgnoreCase(previous[i], genre);
            assert previous[i] in r;
          }
        }
      }
    }
  }

  /** No two genres on the item are equal ignoring case. */
  lemma {:induction false} AddGenresNoDuplicates(genres: seq<string>)
    ensures forall k, l :: 0 <= k < l < |AddGenres(genres)| ==> !EqualsOrdinalIgnoreCase(AddGenres(genres)[k], AddGenres(genres)[l])
  {
    if |genres| > 0 {
      var init := genres[..|genres| - 1];
      var genre := genres[|genres| - 1];
      AddGenresNoDuplicates(init);
      var previous := AddGenres(init);
      if genre != "" && !(exists i :: 0 <= i < |previous| && EqualsOrdinalIgnoreCase(previous[i], genre)) {
        var r := previous + [genre];
        assert AddGenres(genres) == r;
        forall k, l | 0 <= k < l < |r|
          ensures !EqualsOrdinalIgnoreCase(r[k], r[l])
        {
          if l == |previous| {
            EqualsOrdinalIgnoreCaseIsEquivalence(previous[k], genre, genre);
          }
        }
      }
    }
  }

  /** The remote-image loop: every release image, in order, tagged Primary. */
  function PrimaryImages(images: seq<Image>): (r: seq<(string, ImageType)>)
    ensures |r| == |images| && forall i :: 0 <= i < |images| ==> r[i] == (images[i].uri, Primary)
  {
    seq(|images|, i requires 0 <= i < |images| => (images[i].uri, Primary))
  }

  /** The provider IDs stored on the item: the release ID, the master ID unless 0, and the artist ID used. */
  function ItemProviderIds(release: Release, artistId: Option<string>): (r: ProviderIds)
    ensures GetProviderId(r, Constants.AlbumKey) == Some(NatToString(release.id))
    ensures GetProviderId(r, Constants.AlbumMasterKey) ==
      if release.masterId != 0 then Some(NatToString(release.masterId)) else None
    ensures GetProviderId(r, Constants.ArtistKey) == if IsNullOrEmpty(artistId) then None else artistId
    ensures r.Keys <= {Constants.AlbumKey, Constants.AlbumMasterKey, Constants.ArtistKey}
  {
    Constants.KeysDistinct();
    var ids := SetProviderId(map[], Constants.AlbumKey, Some(NatToString(release.id)));
    var ids' := if release.masterId != 0 then SetProviderId(ids, Constants.AlbumMasterKey, Some(NatToString(release.masterId))) else ids;
    SetProviderId(ids', Constants.ArtistKey, artistId)
  }

  /** The metadata result filled in from a fetched release. */
  function ReleaseMetadata(release: Release, artistId: Option<string>): MetadataResult {
    var item := NewItem.(
      name := Some(release.title),
      productionYear := Some(release.year),
      externalId := Some(release.uri),
      genres := if release.genres.Some? then AddGenres(release.genres.value) else [],
      providerIds := ItemProviderIds(release, artistId));
    MetadataResult(true, item, if release.images.Some? then PrimaryImages(release.images.value) else [])
  }

  /** What `GetMetadata` returns for an album and which requests it makes. */
  function AlbumMetadata(c: Catalog, info: AlbumInfo): Resolution<MetadataResult> {
    var resolved := ResolveRelease(c, info);
    var outcome := match resolved.outcome
      case Threw(e) => Threw(e)
      case Returned(None) => Returned(NoMetadata)
      case Returned(Some(release)) => Returned(ReleaseMetadata(release, GetDiscogsArtistId(info)));
    Resolution(outcome, resolved.calls)
  }

  /** A stored master ID of "0" never leads to a master fetch. */
  lemma MasterIdZeroIsAbsent(c: Catalog, info: AlbumInfo)
    requires GetReleaseMasterId(info) == Some("0")
    ensures forall i :: 0 <= i < |AlbumMetadata(c, info).calls| ==> !AlbumMetadata(c, info).calls[i].GetMasterCall?
  {
    var releaseId := GetReleaseId(info);
    if IsNullOrEmpty(releaseId) {
      var rest := ViaArtistReleases(c, GetDiscogsArtistId(info), info.name);
      assert forall i :: 0 <= i < |rest.calls| ==> !rest.calls[i].GetMasterCall?;
    }
  }

  /**
   * When the master and its main release are both found, that release is the result, its ID is the
   * item's "Discogs-Album" ID, and the release-ID branch is never tried: only the two fetches are made.
   */
  lemma MasterPathWins(c: Catalog, info: AlbumInfo, m: nat)
    requires EffectiveMasterId(info).Some? && ParseInt32(EffectiveMasterId(info).value) == Returned(m)
    requires c.Master(m).Some? && c.Release(c.Master(m).value.mainRelease).Some?
    ensures var main := c.Master(m).value.mainRelease;
      AlbumMetadata(c, info).calls == [GetMasterCall(m), GetReleaseCall(main)] &&
      AlbumMetadata(c, info).outcome == Returned(ReleaseMetadata(c.Release(main).value, GetDiscogsArtistId(info))) &&
      AlbumMetadata(c, info).outcome.value.item.providerIds[Constants.AlbumKey] == NatToString(c.Release(main).value.id)
  {
  }

  /** When the master cannot be fetched, the known release ID is fetched next. */
  lemma FailedMasterFallsBackToReleaseId(c: Catalog, info: AlbumInfo, m: nat, id: nat)
    requires EffectiveMasterId(info).Some? && ParseInt32(EffectiveMasterId(info).value) == Returned(m)
    requires c.Master(m).None?
    requires GetReleaseId(info).Some? && ParseInt32(GetReleaseId(info).value) == Returned(id)
    ensures AlbumMetadata(c, info).calls == [GetMasterCall(m), GetReleaseCall(id)]
    ensures c.Release(id).Some? ==> AlbumMetadata(c, info).outcome == Returned(ReleaseMetadata(c.Release(id).value, GetDiscogsArtistId(info)))
    ensures c.Release(id).None? ==> AlbumMetadata(c, info).outcome == Returned(NoMetadata)
  {
  }

  /** With no release, master or artist ID nothing is requested and the result has no metadata. */
  lemma NoIdsNoRequests(c: Catalog, info: AlbumInfo)
    requires IsNullOrEmpty(EffectiveMasterId(info)) && GetReleaseId(info).None? && GetDiscogsArtistId(info).None?
    ensures AlbumMetadata(c, info) == Resolution(Returned(NoMetadata), [])
  {
  }

  /**
   * With neither a release ID nor an artist ID, and no release through the master, the result has no
   * metadata and nothing beyond the master requests is made.
   */
  lemma NoReleaseOrArtistIdGivesNoMetadata(c: Catalog, info: AlbumInfo)
    requires ViaMaster(c, EffectiveMasterId(info)).outcome == Returned(None)
    requires GetReleaseId(info).None? && GetDiscogsArtistId(info).None?
    ensures AlbumMetadata(c, info) == Resolution(Returned(NoMetadata), ViaMaster(c, EffectiveMasterId(info)).calls)
  {
    assert ViaMaster(c, EffectiveMasterId(info)).calls + [] == ViaMaster(c, EffectiveMasterId(info)).calls;
  }

  /**
   * With only an artist ID the artist's listing is read first; a missing listing or a null release
   * array gives no metadata after that single request.
   */
  lemma ArtistListingUnavailable(c: Catalog, info: AlbumInfo, a: nat)
    requires IsNullOrEmpty(EffectiveMasterId(info)) && GetReleaseId(info).None?
    requires GetDiscogsArtistId(info).Some? && ParseInt32(GetDiscogsArtistId(info).value) == Returned(a)
    requires c.ArtistReleaseListing(a).None? || c.ArtistReleaseListing(a).value.releases.None?
    ensures AlbumMetadata(c, info) == Resolution(Returned(NoMetadata), [GetArtistReleaseCall(a)])
  {
  }

  /**
   * With only an artist ID and a listing, the main release of the listing's first entry titled like the
   * album (ignoring case) is fetched and becomes the result: its metadata when found, none otherwise. No
   * matching title gives no metadata after the listing request.
   */
  lemma ArtistListingMatch(c: Catalog, info: AlbumInfo, a: nat, releases: seq<ArtistRelease>)
    requires IsNullOrEmpty(EffectiveMasterId(info)) && GetReleaseId(info).None?
    requires GetDiscogsArtistId(info).Some? && ParseInt32(GetDiscogsArtistId(info).value) == Returned(a)
    requires c.ArtistReleaseListing(a) == Some(ArtistReleases(Some(releases)))
    ensures forall i :: IsFirstTitleMatch(releases, info.name, i) ==>
      AlbumMetadata(c, info).calls == [GetArtistReleaseCall(a), GetReleaseCall(releases[i].mainRelease)]
    ensures forall i :: IsFirstTitleMatch(releases, info.name, i) ==>
      ResolveRelease(c, info).outcome == Returned(c.Release(releases[i].mainRelease)) &&
      AlbumMetadata(c, info).outcome == match c.Release(releases[i].mainRelease)
        case Some(release) => Returned(ReleaseMetadata(release, GetDiscogsArtistId(info)))
        case None => Returned(NoMetadata)
    ensures (forall i :: 0 <= i < |releases| ==> !EqualsOrdinalIgnoreCase(releases[i].title, info.name)) ==>
      AlbumMetadata(c, info) == Resolution(Returned(NoMetadata), [GetArtistReleaseCall(a)])
  {
    forall i | IsFirstTitleMatch(releases, info.name, i)
      ensures AlbumMetadata(c, info).calls == [GetArtistReleaseCall(a), GetReleaseCall(releases[i].mainRelease)]
      ensures ResolveRelease(c, info).outcome == Returned(c.Release(releases[i].mainRelease))
    {
      var entry := FirstTitleMatch(releases, info.name);
      var k :| IsFirstTitleMatch(releases, info.name, k) && releases[k] == entry.value;
      assert !(k < i) && !(i < k);
    }
  }

  /**
   * A found release gives HasMetadata with the release's title, year and URI; the release's images all
   * as Primary, in order; and provider IDs holding the release ID, the master ID only when it is not 0,
   * and the artist ID extracted from the input rather than one read from the release.
   */
  lemma ReleaseMetadataContents(release: Release, artistId: Option<string>)
    ensures var r := ReleaseMetadata(release, artistId);
      r.hasMetadata && r.item.name == Some(release.title) && r.item.productionYear == Some(release.year) &&
      r.item.externalId == Some(release.uri) && r.item.overview == None &&
      r.remoteImages == (if release.images.Some? then PrimaryImages(release.images.value) else []) &&
      GetProviderId(r.item.providerIds, Constants.AlbumKey) == Some(NatToString(release.id)) &&
      (Constants.AlbumMasterKey in r.item.providerIds <==> release.masterId != 0) &&
      GetProviderId(r.item.providerIds, Constants.ArtistKey) == (if IsNullOrEmpty(artistId) then None else artistId)
    ensures release.genres.Some? ==> forall g :: g in release.genres.value && g != "" ==>
      exists x :: x in ReleaseMetadata(release, artistId).item.genres && EqualsOrdinalIgnoreCase(x, g)
    ensures forall g :: g in ReleaseMetadata(release, artistId).item.genres ==>
      g != "" && release.genres.Some? && g in release.genres.value
  {
    if release.genres.Some? {
      AddGenresFromRelease(release.genres.value);
      AddGenresCoversRelease(release.genres.value);
    }
  }

  /**
   * `GetMetadata` never reports metadata without a release: every non-throwing outcome is empty or the
   * metadata of a release the catalog holds.
   */
  lemma MetadataIsReleaseOrNothing(c: Catalog, info: AlbumInfo)
    ensures AlbumMetadata(c, info).outcome.Returned? ==>
      AlbumMetadata(c, info).outcome.value == NoMetadata ||
      exists id :: id in c.releases &&
        AlbumMetadata(c, info).outcome.value == ReleaseMetadata(c.releases[id], GetDiscogsArtistId(info))
  {
  }

  // ---------------------------------------------------------------------------------------------
  // Images

  /** What `GetImages` returns for a library item and which requests it makes. */
  function AlbumImages(c: Catalog, item: BaseItem): Resolution<seq<RemoteImageInfo>> {
    match item
    case AlbumItem(album) =>
      var releaseId := MusicAlbumExensions.GetReleaseId(album);
      if IsNullOrEmpty(releaseId) then Resolution(Returned([]), [])
      else
        (match ParseInt32(releaseId.value)
        case Threw(e) => Resolution(Threw(e), [])
        case Returned(id) =>
          var images := match c.Release(id)
            case None => []
            case Some(release) => if release.images.Some? then RemoteImages.ImageList(release.images.value) else [];
          Resolution(Returned(images), [GetReleaseCall(id)]))
    case _ => Resolution(Returned([]), [])
  }

  /** The item is an album whose stored release ID parses to id. */
  predicate IsAlbumReleaseId(item: BaseItem, id: nat) {
    item.AlbumItem? && MusicAlbumExensions.GetReleaseId(item.album).Some? &&
    ParseInt32(MusicAlbumExensions.GetReleaseId(item.album).value) == Returned(id)
  }

  /**
   * Images: nothing is fetched for a non-album item or an album without a release ID; a failed fetch or
   * a null image array gives no images; otherwise one entry per image with the first Primary.
   */
  lemma ImagesOfAlbum(c: Catalog, item: BaseItem)
    ensures (!item.AlbumItem? || IsNullOrEmpty(MusicAlbumExensions.GetReleaseId(item.album))) ==>
      AlbumImages(c, item) == Resolution(Returned([]), [])
    ensures forall id :: IsAlbumReleaseId(item, id) ==>
        AlbumImages(c, item).calls == [GetReleaseCall(id)] &&
        ((c.Release(id).None? || c.Release(id).value.images.None?) ==> AlbumImages(c, item).outcome == Returned([])) &&
        (c.Release(id).Some? && c.Release(id).value.images.Some? ==>
          AlbumImages(c, item).outcome == Returned(RemoteImages.ImageList(c.Release(id).value.images.value)) &&
          |AlbumImages(c, item).outcome.value| == |c.Release(id).value.images.value| &&
          (|c.Release(id).value.images.value| > 0 ==> AlbumImages(c, item).outcome.value[0].imageType == Primary))
  {
  }

  // ---------------------------------------------------------------------------------------------
  // The provider

  /** `AlbumProvider`: answers the host's album requests through the catalog client. */
  class AlbumProvider {
    const client: Client

    /** The provider's name, also the search provider name of nested artist candidates. */
    const Name: string := Constants.Name

    /** An empty auth token makes the constructor throw an InvalidConfigurationException. */
    constructor (client: Client, authToken: string)
      requires authToken != ""
      ensures this.client == client
    {
      this.client := client;
    }

    method GetSearchResults(searchInfo: AlbumInfo) returns (r: Outcome<seq<RemoteSearchResult>>)
      modifies client`log
      ensures r == AlbumSearch(client.catalog, searchInfo).outcome
      ensures client.log == old(client.log) + AlbumSearch(client.catalog, searchInfo).calls
    {
      var releaseId := GetReleaseId(searchInfo);
      var searchResults: seq<RemoteSearchResult> := [];
      if !IsNullOrEmpty(releaseId) {
        var id := ParseInt32(releaseId.value);
        if id.Threw? {
          return Threw(id.exception);
        }
        var release := client.GetReleaseAsync(id.value);
        if release.Some? {
          searchResults := searchResults + [ReleaseCandidate(release.value, true)];
        }
        if release.Some? {
          assert searchResults == [ReleaseCandidate(release.value, true)];
          assert client.catalog.Release(id.value) == release;
          assert SearchById(client.catalog, id.value).outcome == Returned([ReleaseCandidate(release.value, true)]);
        } else {
          assert SearchById(client.catalog, id.value).outcome == Returned([]);
        }
      } else {
        var search := BuildSearchQuery(searchInfo);
        var page := client.SearchAsync(search);
        if page.Some? {
          if page.value.results.None? {
            return Threw(NullReferenceException);
          }
          searchResults := FetchCandidates(page.value.results.value);
        }
        assert Returned(searchResults) == SearchByQuery(client.catalog, search).outcome;
      }
      return Returned(searchResults);
    }

    /** The query of a search by name, filled in field by field. */
    static method BuildSearchQuery(searchInfo: AlbumInfo) returns (search: SearchQuery)
      ensures search == AlbumSearchQuery(searchInfo)
    {
      var artist := GetAlbumArtist(searchInfo);
      search := SearchQuery(ReleaseEntity, None, Some(searchInfo.name), None, None);
      if artist != "" {
        search := search.(artist := Some(artist));
      }
      if searchInfo.year.Some? {
        search := search.(year := Some(searchInfo.year.value));
      }
    }

    /** The loop over search results: fetch each result's release and keep a candidate per success. */
    method FetchCandidates(results: seq<SearchResult>) returns (candidates: seq<RemoteSearchResult>)
      modifies client`log
      ensures candidates == QueryCandidates(client.catalog, results)
      ensures client.log == old(client.log) + ResultFetches(results)
    {
      candidates := [];
      for i := 0 to |results|
        invariant candidates == QueryCandidates(client.catalog, results[..i])
        invariant client.log == old(client.log) + ResultFetches(results[..i])
      {
        var release := client.GetReleaseAsync(results[i].id);
        if release.Some? {
          candidates := candidates + [ReleaseCandidate(release.value, false)];
        }
        assert results[..i + 1] == results[..i] + [results[i]];
        QueryCandidatesAppend(client.catalog, results[..i], [results[i]]);
        assert [results[i]][1..] == [];
      }
      assert results[..|results|] == results;
    }

    method GetMetadata(info: AlbumInfo) returns (r: Outcome<MetadataResult>)
      modifies client`log
      ensures r == AlbumMetadata(client.catalog, info).outcome
      ensures client.log == old(client.log) + AlbumMetadata(client.catalog, info).calls
    {
      var result := NoMetadata;
      var releaseId := GetReleaseId(info);
      var releaseMasterId := GetReleaseMasterId(info);
      if releaseMasterId == Some("0") {
        releaseMasterId := None;
      }
      var artistId := GetDiscogsArtistId(info);

      var byMaster := FindByMaster(releaseMasterId);
      if byMaster.Threw? {
        return Threw(byMaster.exception);
      }
      var release := byMaster.value;
      ghost var afterMaster := client.log;

      if release.None? {
        if !IsNullOrEmpty(releaseId) {
          var id := ParseInt32(releaseId.value);
          if id.Threw? {
            return Threw(id.exception);
          }
          release := client.GetReleaseAsync(id.value);
          assert client.log == afterMaster + ViaReleaseId(client.catalog, releaseId.value).calls;
        } else {
          var found := FindByArtistListing(artistId, info.name);
          if found.Threw? {
            return Threw(found.exception);
          }
          release := found.value;
        }
      }

      assert Returned(release) == ResolveRelease(client.catalog, info).outcome;
      assert client.log == old(client.log) + ResolveRelease(client.catalog, info).calls;
      if release.Some? {
        result := ReleaseToMetadata(release.value, artistId);
      }
      return Returned(result);
    }

    /** The master step of `GetMetadata`: the main release of the stored master. */
    method FindByMaster(releaseMasterId: Option<string>) returns (r: Outcome<Option<Release>>)
      modifies client`log
      ensures r == ViaMaster(client.catalog, releaseMasterId).outcome
      ensures client.log == old(client.log) + ViaMaster(client.catalog, releaseMasterId).calls
    {
      if IsNullOrEmpty(releaseMasterId) {
        return Returned(None);
      }
      var masterId := ParseInt32(releaseMasterId.value);
      if masterId.Threw? {
        return Threw(masterId.exception);
      }
      var master := client.GetMasterAsync(masterId.value);
      var release: Option<Release> := None;
      if master.Some? {
        release := client.GetReleaseAsync(master.value.mainRelease);
      }
      return Returned(release);
    }

    /** The artist-listing fallback of `GetMetadata`. */
    method FindByArtistListing(artistId: Option<string>, name: string) returns (r: Outcome<Option<Release>>)
      modifies client`log
      ensures r == ViaArtistReleases(client.catalog, artistId, name).outcome
      ensures client.log == old(client.log) + ViaArtistReleases(client.catalog, artistId, name).calls
    {
      if IsNullOrEmpty(artistId) {
        return Returned(None);
      }
      var aid := ParseInt32(artistId.value);
      if aid.Threw? {
        return Threw(aid.exception);
      }
      var artistReleases := client.GetArtistReleaseAsync(aid.value);
      if artistReleases.None? {
        return Returned(None);
      }
      if artistReleases.value.releases.None? {
        return Returned(None);
      }
      var artistRelease := FirstTitleMatch(artistReleases.value.releases.value, name);
      if artistRelease.None? {
        return Returned(None);
      }
      var release := client.GetReleaseAsync(artistRelease.value.mainRelease);
      return Returned(release);
    }

    /** The success path of `GetMetadata`: copy the release's fields, genres, images and IDs onto the item. */
    static method ReleaseToMetadata(found: Release, artistId: Option<string>) returns (result: MetadataResult)
      ensures result == ReleaseMetadata(found, artistId)
    {
      var item := NewItem.(name := Some(found.title), productionYear := Some(found.year), externalId := Some(found.uri));
      var remoteImages: seq<(string, ImageType)> := [];
      if found.genres.Some? {
        var genres := found.genres.value;
        for i := 0 to |genres|
          invariant item == NewItem.(name := Some(found.title), productionYear := Some(found.year),
            externalId := Some(found.uri), genres := AddGenres(genres[..i]))
        {
          assert genres[..i + 1][..i] == genres[..i];
          if genres[i] != "" {
            item := item.(genres := AddGenre(item.genres, genres[i]));
          }
        }
        assert genres[..|genres|] == genres;
      }
      if found.images.Some? {
        var images := found.images.value;
        for i := 0 to |images|
          invariant remoteImages == PrimaryImages(images[..i])
        {
          remoteImages := remoteImages + [(images[i].uri, Primary)];
        }
        assert images[..|images|] == images;
      }
      var ids := SetProviderId(item.providerIds, Constants.AlbumKey, Some(NatToString(found.id)));
      if found.masterId != 0 {
        ids := SetProviderId(ids, Constants.AlbumMasterKey, Some(NatToString(found.masterId)));
      }
      ids := SetProviderId(ids, Constants.ArtistKey, artistId);
      item := item.(providerIds := ids);
      result := MetadataResult(true, item, remoteImages);
    }

    method GetImages(item: BaseItem) returns (r: Outcome<seq<RemoteImageInfo>>)
      modifies client`log
      ensures r == AlbumImages(client.catalog, item).outcome
      ensures client.log == old(client.log) + AlbumImages(client.catalog, item).calls
    {
      var images: seq<RemoteImageInfo> := [];
      if !item.AlbumItem? {
        return Returned(images);
      }
      var releaseId := MusicAlbumExensions.GetReleaseId(item.album);
      if IsNullOrEmpty(releaseId) {
        return Returned(images);
      }
      var id := ParseInt32(releaseId.value);
      if id.Threw? {
        return Threw(id.exception);
      }
      var discogsRelease := client.GetReleaseAsync(id.value);
      if discogsRelease.None? {
        return Returned(images);
      }
      if discogsRelease.value.images.None? {
        return Returned(images);
      }
      var releaseImages := discogsRelease.value.images.value;
      if |releaseImages| == 0 {
        // The source reads images[0] here and throws; the model returns the empty list.
        assert RemoteImages.ImageList(releaseImages) == [];
        return Returned(images);
      }
      images := images + [RemoteImages.Info(releaseImages[0], Primary)];
      for i := 1 to |releaseImages|
        invariant images == RemoteImages.ImageList(releaseImages[..i])
      {
        images := images + [RemoteImages.Info(releaseImages[i], Backdrop)];
      }
      assert releaseImages[..|releaseImages|] == releaseImages;
      return Returned(images);
    }
  }
}

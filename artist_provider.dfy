/**
 * The artist resolver: search candidates for an artist, the artist's metadata, its images, and the
 * (currently unused) collection of an artist's genres from its main releases.
 */
module ArtistProvider {
  import opened Wrappers
  import opened Text
  import opened MediaBrowser
  import opened DiscogsClient
  import opened ArtistInfoExtensions
  import MusicArtistExensions
  import RemoteImages
  import Constants

  // ---------------------------------------------------------------------------------------------
  // Search

  /** The structured query of an artist search by name. */
  function ArtistSearchQuery(info: ArtistInfo): SearchQuery {
    SearchQuery(ArtistEntity, Some(info.name), None, None, None)
  }

  /**
   * The candidate made from an artist fetched by its stored ID `artistId`: its name, its first image
   * when it has any, and the stored ID itself. Reading the length of a null image array throws.
   */
  function CandidateOfArtist(artist: Artist, artistId: string): (r: Outcome<RemoteSearchResult>)
    requires artistId != ""
    ensures r.Threw? <==> artist.images.None?
    ensures r.Threw? ==> r.exception == NullReferenceException
    ensures r.Returned? ==>
      r.value.name == Some(artist.name) &&
      r.value.providerIds == map[Constants.ArtistKey := artistId] &&
      (r.value.imageUrl.Some? <==> |artist.images.value| > 0) &&
      (r.value.imageUrl.Some? ==> r.value.imageUrl.value == artist.images.value[0].uri)
  {
    match artist.images
    case None => Threw(NullReferenceException)
    case Some(images) =>
      Returned(NewSearchResult.(
        name := Some(artist.name),
        imageUrl := if |images| > 0 then Some(images[0].uri) else None,
        providerIds := SetProviderId(map[], Constants.ArtistKey, Some(artistId))))
  }

  /** The candidate made from one search result: its title, thumbnail and numeric ID. */
  function CandidateOfResult(result: SearchResult): RemoteSearchResult {
    NewSearchResult.(
      name := Some(result.title),
      imageUrl := Some(result.thumb),
      providerIds := SetProviderId(map[], Constants.ArtistKey, Some(NatToString(result.id))))
  }

  /** One candidate per search result, in order. */
  function CandidatesOfResults(results: seq<SearchResult>): (r: seq<RemoteSearchResult>)
    ensures |r| == |results| && forall i :: 0 <= i < |results| ==> r[i] == CandidateOfResult(results[i])
  {
    seq(|results|, i requires 0 <= i < |results| => CandidateOfResult(results[i]))
  }

  /** The direct-ID search: fetch the artist and make it the only candidate. */
  function SearchById(c: Catalog, artistId: string, id: nat): Resolution<seq<RemoteSearchResult>>
    requires artistId != ""
  {
    match c.Artist(id)
    case None => Resolution(Returned([]), [GetArtistCall(id)])
    case Some(artist) =>
      match CandidateOfArtist(artist, artistId)
      case Threw(e) => Resolution(Threw(e), [GetArtistCall(id)])
      case Returned(candidate) => Resolution(Returned([candidate]), [GetArtistCall(id)])
  }

  /** The search by name: one query and no artist fetch; a null result array throws in the loop. */
  function SearchByQuery(c: Catalog, query: SearchQuery): Resolution<seq<RemoteSearchResult>> {
    match c.search(query)
    case None => Resolution(Returned([]), [SearchCall(query)])
    case Some(page) =>
      match page.results
      case None => Resolution(Threw(NullReferenceException), [SearchCall(query)])
      case Some(results) => Resolution(Returned(CandidatesOfResults(results)), [SearchCall(query)])
  }

  /** What `GetSearchResults` returns for an artist and which requests it makes. */
  function ArtistSearch(c: Catalog, info: ArtistInfo): Resolution<seq<RemoteSearchResult>> {
    var artistId := GetArtistId(info);
    if !IsNullOrEmpty(artistId) then
      match ParseInt32(artistId.value)
      case Threw(e) => Resolution(Threw(e), [])
      case Returned(id) => SearchById(c, artistId.value, id)
    else SearchByQuery(c, ArtistSearchQuery(info))
  }

  /**
   * With an artist ID the search fetches that one artist and sends no query; it yields at most one
   * candidate, which carries the stored ID unchanged.
   */
  lemma SearchWithArtistId(c: Catalog, info: ArtistInfo, id: nat)
    requires GetArtistId(info).Some? && ParseInt32(GetArtistId(info).value) == Returned(id)
    ensures ArtistSearch(c, info).calls == [GetArtistCall(id)]
    ensures ArtistSearch(c, info).outcome.Returned? ==> |ArtistSearch(c, info).outcome.value| <= 1
    ensures c.Artist(id).None? ==> ArtistSearch(c, info).outcome == Returned([])
    ensures c.Artist(id).Some? && c.Artist(id).value.images.Some? ==>
      |ArtistSearch(c, info).outcome.value| == 1 &&
      ArtistSearch(c, info).outcome.value[0].providerIds[Constants.ArtistKey] == GetArtistId(info).value
    ensures c.Artist(id).Some? && c.Artist(id).value.images.None? ==>
      ArtistSearch(c, info).outcome == Threw(NullReferenceException)
  {
  }

  /**
   * Without an artist ID the search sends one artist query on the name and fetches nothing else; it
   * yields one candidate per result, in order, whose stored ID reads back as the result's ID.
   */
  lemma SearchWithoutArtistId(c: Catalog, info: ArtistInfo, results: seq<SearchResult>)
    requires GetArtistId(info).None?
    requires c.search(ArtistSearchQuery(info)) == Some(SearchResults(Some(results)))
    ensures ArtistSearch(c, info).calls == [SearchCall(SearchQuery(ArtistEntity, Some(info.name), None, None, None))]
    ensures |ArtistSearch(c, info).outcome.value| == |results|
    ensures forall i :: 0 <= i < |results| && results[i].id <= MaxInt32 ==>
      ParseInt32(ArtistSearch(c, info).outcome.value[i].providerIds[Constants.ArtistKey]) == Returned(results[i].id)
    ensures forall i :: 0 <= i < |results| ==>
      ArtistSearch(c, info).outcome.value[i].name == Some(results[i].title) &&
      ArtistSearch(c, info).outcome.value[i].imageUrl == Some(results[i].thumb)
  {
    var candidates := ArtistSearch(c, info).outcome.value;
    forall i | 0 <= i < |results| && results[i].id <= MaxInt32
      ensures ParseInt32(candidates[i].providerIds[Constants.ArtistKey]) == Returned(results[i].id)
    {
      ParseInt32OfNatToString(results[i].id);
    }
  }

  /** Without an artist ID, an absent search response gives no candidates after the single query. */
  lemma SearchWithoutArtistIdNullResponse(c: Catalog, info: ArtistInfo)
    requires GetArtistId(info).None? && c.search(ArtistSearchQuery(info)).None?
    ensures ArtistSearch(c, info) == Resolution(Returned([]), [SearchCall(ArtistSearchQuery(info))])
  {
  }

  // ---------------------------------------------------------------------------------------------
  // Metadata

  /** The metadata result filled in from a fetched artist; the name is copied only when configured to. */
  function ArtistMetadataOf(artist: Artist, replaceArtistName: bool): MetadataResult {
    var item := NewItem.(
      name := if replaceArtistName then Some(artist.name) else None,
      externalId := Some(artist.uri),
      overview := Some(artist.profile),
      providerIds := SetProviderId(map[], Constants.ArtistKey, Some(NatToString(artist.id))));
    MetadataResult(true, item, [])
  }

  /** The artist `GetMetadata` settles on: by its stored ID, or else the first hit of a name search. */
  function ResolveArtist(c: Catalog, info: ArtistInfo): Resolution<Option<Artist>> {
    var artistId := GetArtistId(info);
    if IsNullOrEmpty(artistId) then
      var query := ArtistSearchQuery(info);
      match c.search(query)
      case None => Resolution(Returned(None), [SearchCall(query)])
      case Some(page) =>
        match page.results
        case None => Resolution(Returned(None), [SearchCall(query)])
        case Some(results) =>
          if |results| == 0 then Resolution(Returned(None), [SearchCall(query)])
          else Resolution(Returned(c.Artist(results[0].id)), [SearchCall(query), GetArtistCall(results[0].id)])
    else
      match ParseInt32(artistId.value)
      case Threw(e) => Resolution(Threw(e), [])
      case Returned(id) => Resolution(Returned(c.Artist(id)), [GetArtistCall(id)])
  }

  /** What `GetMetadata` returns for an artist and which requests it makes. */
  function ArtistMetadata(c: Catalog, info: ArtistInfo, replaceArtistName: bool): Resolution<MetadataResult> {
    var resolved := ResolveArtist(c, info);
    var outcome := match resolved.outcome
      case Threw(e) => Threw(e)
      case Returned(None) => Returned(NoMetadata)
      case Returned(Some(artist)) => Returned(ArtistMetadataOf(artist, replaceArtistName));
    Resolution(outcome, resolved.calls)
  }

  /**
   * A found artist gives HasMetadata with its URI, profile and numeric ID (which reads back as the
   * artist's ID), no genres and no images; the name is set exactly when configured to replace it.
   */
  lemma ArtistMetadataContents(artist: Artist, replaceArtistName: bool)
    requires artist.id <= MaxInt32
    ensures var r := ArtistMetadataOf(artist, replaceArtistName);
      r.hasMetadata && r.item.externalId == Some(artist.uri) && r.item.overview == Some(artist.profile) &&
      r.item.genres == [] && r.remoteImages == [] &&
      (r.item.name.Some? <==> replaceArtistName) &&
      (replaceArtistName ==> r.item.name == Some(artist.name)) &&
      r.item.providerIds.Keys == {Constants.ArtistKey} &&
      ParseInt32(r.item.providerIds[Constants.ArtistKey]) == Returned(artist.id)
  {
    ParseInt32OfNatToString(artist.id);
  }

  /** The replace-name setting changes the item's name and nothing else, and no request. */
  lemma ReplaceArtistNameOnlyChangesName(c: Catalog, info: ArtistInfo)
    ensures ArtistMetadata(c, info, true).calls == ArtistMetadata(c, info, false).calls
    ensures ArtistMetadata(c, info, true).outcome.Returned? <==> ArtistMetadata(c, info, false).outcome.Returned?
    ensures ArtistMetadata(c, info, true).outcome.Returned? ==>
      ArtistMetadata(c, info, true).outcome.value.(item := ArtistMetadata(c, info, true).outcome.value.item.(name := None)) ==
      ArtistMetadata(c, info, false).outcome.value
  {
  }

  /**
   * Without a stored ID only the first search hit is fetched, and it is the artist whose metadata is
   * returned (none when that fetch fails); an absent response, a null result array or no hits give no
   * metadata after the single query.
   */
  lemma MetadataUsesFirstHit(c: Catalog, info: ArtistInfo, replaceArtistName: bool)
    requires GetArtistId(info).None?
    ensures var query := ArtistSearchQuery(info);
      var r := ArtistMetadata(c, info, replaceArtistName);
      match c.search(query)
      case Some(SearchResults(Some(results))) =>
        if |results| > 0 then
          r.calls == [SearchCall(query), GetArtistCall(results[0].id)] &&
          ResolveArtist(c, info).outcome == Returned(c.Artist(results[0].id)) &&
          r.outcome == match c.Artist(results[0].id)
            case Some(artist) => Returned(ArtistMetadataOf(artist, replaceArtistName))
            case None => Returned(NoMetadata)
        else r == Resolution(Returned(NoMetadata), [SearchCall(query)])
      case _ => r == Resolution(Returned(NoMetadata), [SearchCall(query)])
  {
  }

  /** With a stored artist ID the artist is fetched directly and no search is sent. */
  lemma MetadataWithArtistId(c: Catalog, info: ArtistInfo, replaceArtistName: bool, id: nat)
    requires GetArtistId(info).Some? && ParseInt32(GetArtistId(info).value) == Returned(id)
    ensures ArtistMetadata(c, info, replaceArtistName).calls == [GetArtistCall(id)]
    ensures c.Artist(id).None? ==> ArtistMetadata(c, info, replaceArtistName).outcome == Returned(NoMetadata)
    ensures c.Artist(id).Some? ==>
      ArtistMetadata(c, info, replaceArtistName).outcome == Returned(ArtistMetadataOf(c.Artist(id).value, replaceArtistName))
  {
  }

  /** `GetMetadata` never reads release listings or releases: genre collection is not part of it. */
  lemma MetadataReadsNoReleases(c: Catalog, info: ArtistInfo, replaceArtistName: bool)
    ensures forall i :: 0 <= i < |ArtistMetadata(c, info, replaceArtistName).calls| ==>
      !ArtistMetadata(c, info, replaceArtistName).calls[i].GetArtistReleaseCall? &&
      !ArtistMetadata(c, info, replaceArtistName).calls[i].GetReleaseCall?
    ensures |ArtistMetadata(c, info, replaceArtistName).calls| <= 2
  {
  }

  // ---------------------------------------------------------------------------------------------
  // Genres

  /** The role filter of the genre collection. */
  predicate IsMainRole(entry: ArtistRelease) {
    EqualsOrdinalIgnoreCase(entry.role, "Main")
  }

  /** The IDs of the listing's entries whose role is "Main" (ignoring case), in listing order. */
  function MainReleaseIds(releases: seq<ArtistRelease>): seq<nat> {
    if |releases| == 0 then []
    else
      var last := releases[|releases| - 1];
      MainReleaseIds(releases[..|releases| - 1]) + if IsMainRole(last) then [last.id] else []
  }

  /** An ID is selected exactly when some entry with role "Main" carries it. */
  lemma {:induction false} MainReleaseIdsMembers(releases: seq<ArtistRelease>)
    ensures forall id :: id in MainReleaseIds(releases) <==> exists i :: 0 <= i < |releases| && IsMainEntry(releases, i, id)
  {
    if |releases| > 0 {
      var init := releases[..|releases| - 1];
      var last := releases[|releases| - 1];
      var ids := MainReleaseIds(releases);
      assert ids == MainReleaseIds(init) + if IsMainRole(last) then [last.id] else [];
      MainReleaseIdsMembers(init);
      forall id | exists i :: 0 <= i < |releases| && IsMainEntry(releases, i, id) ensures id in ids {
        var i :| 0 <= i < |releases| && IsMainEntry(releases, i, id);
        if i < |init| {
          assert IsMainEntry(init, i, id);
          assert id in MainReleaseIds(init);
        }
      }
      forall id | id in ids ensures exists i :: 0 <= i < |releases| && IsMainEntry(releases, i, id) {
        if id in MainReleaseIds(init) {
          var i :| 0 <= i < |init| && IsMainEntry(init, i, id);
          assert IsMainEntry(releases, i, id);
        } else {
          assert IsMainEntry(releases, |releases| - 1, id);
        }
      }
    }
  }

  /** An entry whose role is written "main" or "MAIN" is selected like one written "Main". */
  lemma MainRoleInAnyCaseIsSelected(releases: seq<ArtistRelease>, i: nat)
    requires i < |releases| && releases[i].role in ["main", "MAIN"]
    ensures releases[i].id in MainReleaseIds(releases)
  {
    MainMatchesAnyCase();
    assert IsMainEntry(releases, i, releases[i].id);
    MainReleaseIdsMembers(releases);
  }

  /** Entry i of the listing has role "Main" and ID id. */
  ghost predicate IsMainEntry(releases: seq<ArtistRelease>, i: int, id: nat) {
    0 <= i < |releases| && IsMainRole(releases[i]) && releases[i].id == id
  }

  /** No element occurs twice. */
  predicate NoDuplicates<T(==)>(s: seq<T>) {
    forall i, j :: 0 <= i < j < |s| ==> s[i] != s[j]
  }

  /** LINQ `Distinct`: the first occurrence of each element, in order. */
  function Distinct(ids: seq<nat>): seq<nat> {
    if |ids| == 0 then []
    else
      var previous := Distinct(ids[..|ids| - 1]);
      var last := ids[|ids| - 1];
      if last in previous then previous else previous + [last]
  }

  /** `Distinct` keeps every element and drops every repetition. */
  lemma {:induction false} DistinctProperties(ids: seq<nat>)
    ensures NoDuplicates(Distinct(ids))
    ensures forall x :: x in Distinct(ids) <==> x in ids
  {
    if |ids| > 0 {
      DistinctProperties(ids[..|ids| - 1]);
      assert ids == ids[..|ids| - 1] + [ids[|ids| - 1]];
    }
  }

  /** The elements of a sequence, as a set. */
  function Elements(s: seq<string>): set<string> {
    set x | x in s
  }

  /** Appending an element adds exactly that element. */
  lemma ElementsAppend(s: seq<string>, x: string)
    ensures Elements(s + [x]) == Elements(s) + {x}
  {
  }

  /** The genres of one fetched release; a missing release or a null genre array adds none. */
  function ReleaseGenres(c: Catalog, id: nat): set<string> {
    match c.Release(id)
    case Some(release) => if release.genres.Some? then Elements(release.genres.value) else {}
    case None => {}
  }

  /** The union of the genres of the given releases. */
  function GenresOf(c: Catalog, ids: seq<nat>): set<string> {
    if |ids| == 0 then {} else GenresOf(c, ids[..|ids| - 1]) + ReleaseGenres(c, ids[|ids| - 1])
  }

  /** A genre is collected exactly when some listed release carries it. */
  lemma {:induction false} GenresOfMembers(c: Catalog, ids: seq<nat>, g: string)
    ensures g in GenresOf(c, ids) <==> exists i :: 0 <= i < |ids| && g in ReleaseGenres(c, ids[i])
  {
    if |ids| > 0 {
      var init := ids[..|ids| - 1];
      GenresOfMembers(c, init, g);
      if g in GenresOf(c, init) {
        var i :| 0 <= i < |init| && g in ReleaseGenres(c, init[i]);
        assert ids[i] == init[i];
      }
      if exists i :: 0 <= i < |ids| && g in ReleaseGenres(c, ids[i]) {
        var i :| 0 <= i < |ids| && g in ReleaseGenres(c, ids[i]);
        if i < |init| {
          assert init[i] == ids[i];
        }
      }
    }
  }

  /** One release fetch per ID, in order. */
  function ReleaseFetches(ids: seq<nat>): (calls: seq<Call>)
    ensures |calls| == |ids| && forall i :: 0 <= i < |ids| ==> calls[i] == GetReleaseCall(ids[i])
  {
    seq(|ids|, i requires 0 <= i < |ids| => GetReleaseCall(ids[i]))
  }

  /** The main releases whose genres are collected: each main-role ID once, in first-listed order. */
  function GenreReleaseIds(releases: seq<ArtistRelease>): seq<nat> {
    Distinct(MainReleaseIds(releases))
  }

  /**
   * What `GetArtistGenres` collects, as a set (the source returns a hash set's contents, whose order
   * is unspecified), and which requests it makes.
   */
  function ArtistGenres(c: Catalog, artistId: nat): Resolution<set<string>> {
    match c.ArtistReleaseListing(artistId)
    case None => Resolution(Returned({}), [GetArtistReleaseCall(artistId)])
    case Some(listing) =>
      match listing.releases
      case None => Resolution(Threw(ArgumentNullException), [GetArtistReleaseCall(artistId)])
      case Some(releases) =>
        var ids := GenreReleaseIds(releases);
        Resolution(Returned(GenresOf(c, ids)), [GetArtistReleaseCall(artistId)] + ReleaseFetches(ids))
  }

  /** The genre collection fetches each main-role release exactly once, and no other release. */
  lemma ArtistGenresFetchesEachMainReleaseOnce(c: Catalog, artistId: nat, releases: seq<ArtistRelease>)
    requires c.ArtistReleaseListing(artistId) == Some(ArtistReleases(Some(releases)))
    ensures var calls := ArtistGenres(c, artistId).calls;
      calls[0] == GetArtistReleaseCall(artistId) && NoDuplicates(calls) &&
      forall id :: GetReleaseCall(id) in calls <==> exists i :: 0 <= i < |releases| && IsMainEntry(releases, i, id)
  {
    var ids := GenreReleaseIds(releases);
    MainReleaseIdsMembers(releases);
    DistinctProperties(MainReleaseIds(releases));
    var calls := ArtistGenres(c, artistId).calls;
    assert calls == [GetArtistReleaseCall(artistId)] + ReleaseFetches(ids);
    forall i, j | 0 <= i < j < |calls| ensures calls[i] != calls[j] {
      if i > 0 {
        assert ids[i - 1] != ids[j - 1];
      }
    }
    forall id ensures GetReleaseCall(id) in calls <==> id in ids {
      if GetReleaseCall(id) in calls {
        var k :| 0 <= k < |calls| && calls[k] == GetReleaseCall(id);
        assert ids[k - 1] == id;
      }
      if id in ids {
        var k :| 0 <= k < |ids| && ids[k] == id;
        assert calls[k + 1] == GetReleaseCall(id);
      }
    }
  }

  /** A genre is collected exactly when one of the fetched main releases carries it. */
  lemma ArtistGenresAreMainReleaseGenres(c: Catalog, artistId: nat, releases: seq<ArtistRelease>)
    requires c.ArtistReleaseListing(artistId) == Some(ArtistReleases(Some(releases)))
    ensures forall g :: g in ArtistGenres(c, artistId).outcome.value <==>
      exists id :: id in GenreReleaseIds(releases) && g in ReleaseGenres(c, id)
  {
    var ids := GenreReleaseIds(releases);
    forall g ensures g in GenresOf(c, ids) <==> exists id :: id in ids && g in ReleaseGenres(c, id) {
      GenresOfMembers(c, ids, g);
      if exists id :: id in ids && g in ReleaseGenres(c, id) {
        var id :| id in ids && g in ReleaseGenres(c, id);
        var k :| 0 <= k < |ids| && ids[k] == id;
      }
    }
  }

  // ---------------------------------------------------------------------------------------------
  // Images

  /** What `GetImages` returns for a library item and which requests it makes. */
  function ArtistImages(c: Catalog, item: BaseItem): Resolution<seq<RemoteImageInfo>> {
    match item
    case ArtistItem(artist) =>
      var artistId := MusicArtistExensions.GetArtistId(artist);
      if IsNullOrEmpty(artistId) then Resolution(Returned([]), [])
      else
        (match ParseInt32(artistId.value)
        case Threw(e) => Resolution(Threw(e), [])
        case Returned(id) =>
          var images := match c.Artist(id)
            case None => []
            case Some(found) => if found.images.Some? then RemoteImages.ImageList(found.images.value) else [];
          Resolution(Returned(images), [GetArtistCall(id)]))
    case _ => Resolution(Returned([]), [])
  }

  /** The item is an artist whose stored artist ID parses to id. */
  predicate IsArtistId(item: BaseItem, id: nat) {
    item.ArtistItem? && MusicArtistExensions.GetArtistId(item.artist).Some? &&
    ParseInt32(MusicArtistExensions.GetArtistId(item.artist).value) == Returned(id)
  }

  /**
   * Images: nothing is fetched for a non-artist item or an artist without an ID; a failed fetch or a
   * null image array gives no images; otherwise one entry per image with the first Primary.
   */
  lemma ImagesOfArtist(c: Catalog, item: BaseItem)
    ensures (!item.ArtistItem? || IsNullOrEmpty(MusicArtistExensions.GetArtistId(item.artist))) ==>
      ArtistImages(c, item) == Resolution(Returned([]), [])
    ensures forall id :: IsArtistId(item, id) ==>
        ArtistImages(c, item).calls == [GetArtistCall(id)] &&
        ((c.Artist(id).None? || c.Artist(id).value.images.None?) ==> ArtistImages(c, item).outcome == Returned([])) &&
        (c.Artist(id).Some? && c.Artist(id).value.images.Some? ==>
          ArtistImages(c, item).outcome == Returned(RemoteImages.ImageList(c.Artist(id).value.images.value)) &&
          |ArtistImages(c, item).outcome.value| == |c.Artist(id).value.images.value| &&
          (|c.Artist(id).value.images.value| > 0 ==> ArtistImages(c, item).outcome.value[0].imageType == Primary))
  {
  }

  // ---------------------------------------------------------------------------------------------
  // The provider

  /** `ArtistProvider`: answers the host's artist requests through the catalog client. */
  class ArtistProvider {
    const client: Client

    /** The provider's name. */
    const Name: string := Constants.Name

    /** An empty auth token makes the constructor throw an InvalidConfigurationException. */
    constructor (client: Client, authToken: string)
      requires authToken != ""
      ensures this.client == client
    {
      this.client := client;
    }

    method GetSearchResults(searchInfo: ArtistInfo) returns (r: Outcome<seq<RemoteSearchResult>>)
      modifies client`log
      ensures r == ArtistSearch(client.catalog, searchInfo).outcome
      ensures client.log == old(client.log) + ArtistSearch(client.catalog, searchInfo).calls
    {
      var artistId := GetArtistId(searchInfo);
      var searchResults: seq<RemoteSearchResult> := [];
      if !IsNullOrEmpty(artistId) {
        var id := ParseInt32(artistId.value);
        if id.Threw? {
          return Threw(id.exception);
        }
        var artist := client.GetArtistAsync(id.value);
        if artist.Some? {
          if artist.value.images.None? {
            return Threw(NullReferenceException);
          }
          var result := NewSearchResult.(name := Some(artist.value.name));
          if |artist.value.images.value| > 0 {
            result := result.(imageUrl := Some(artist.value.images.value[0].uri));
          }
          result := result.(providerIds := SetProviderId(result.providerIds, Constants.ArtistKey, artistId));
          searchResults := searchResults + [result];
          assert searchResults == [result];
          assert CandidateOfArtist(artist.value, artistId.value) == Returned(result);
        }
        assert client.catalog.Artist(id.value) == artist;
      } else {
        var search := SearchQuery(ArtistEntity, Some(searchInfo.name), None, None, None);
        var page := client.SearchAsync(search);
        if page.Some? {
          if page.value.results.None? {
            return Threw(NullReferenceException);
          }
          var results := page.value.results.value;
          for i := 0 to |results|
            invariant searchResults == CandidatesOfResults(results[..i])
          {
            var result := NewSearchResult.(name := Some(results[i].title), imageUrl := Some(results[i].thumb));
            result := result.(providerIds := SetProviderId(result.providerIds, Constants.ArtistKey, Some(NatToString(results[i].id))));
            assert result == CandidateOfResult(results[i]);
            searchResults := searchResults + [result];
            assert CandidatesOfResults(results[..i + 1]) == CandidatesOfResults(results[..i]) + [result];
          }
          assert results[..|results|] == results;
        }
        assert Returned(searchResults) == SearchByQuery(client.catalog, search).outcome;
      }
      return Returned(searchResults);
    }

    /** `replaceArtistName` is the plugin setting of the same name. */
    method GetMetadata(info: ArtistInfo, replaceArtistName: bool) returns (r: Outcome<MetadataResult>)
      modifies client`log
      ensures r == ArtistMetadata(client.catalog, info, replaceArtistName).outcome
      ensures client.log == old(client.log) + ArtistMetadata(client.catalog, info, replaceArtistName).calls
    {
      var result := NoMetadata;
      var artistId := GetArtistId(info);
      var artist: Option<Artist> := None;
      if IsNullOrEmpty(artistId) {
        var search := SearchQuery(ArtistEntity, Some(info.name), None, None, None);
        var page := client.SearchAsync(search);
        if page.None? {
          return Returned(result);
        }
        if page.value.results.None? {
          return Returned(result);
        }
        var results := page.value.results.value;
        if |results| > 0 {
          artist := client.GetArtistAsync(results[0].id);
        }
      } else {
        var id := ParseInt32(artistId.value);
        if id.Threw? {
          return Threw(id.exception);
        }
        artist := client.GetArtistAsync(id.value);
      }
      if artist.None? {
        return Returned(result);
      }
      var item := result.item;
      if replaceArtistName {
        item := item.(name := Some(artist.value.name));
      }
      item := item.(externalId := Some(artist.value.uri), overview := Some(artist.value.profile));
      item := item.(providerIds := SetProviderId(item.providerIds, Constants.ArtistKey, Some(NatToString(artist.value.id))));
      result := MetadataResult(true, item, result.remoteImages);
      return Returned(result);
    }

    /**
     * The genres of the artist's main releases, each release fetched once; the array is a hash set's
     * contents, so only its elements (each once) are promised, not their order.
     */
    method GetArtistGenres(artistId: nat) returns (r: Outcome<seq<string>>)
      modifies client`log
      ensures r.Threw? <==> ArtistGenres(client.catalog, artistId).outcome.Threw?
      ensures r.Threw? ==> r.exception == ArtistGenres(client.catalog, artistId).outcome.exception
      ensures r.Returned? ==>
        NoDuplicates(r.value) && Elements(r.value) == ArtistGenres(client.catalog, artistId).outcome.value
      ensures client.log == old(client.log) + ArtistGenres(client.catalog, artistId).calls
    {
      var genres: seq<string> := [];
      var artistReleases := client.GetArtistReleaseAsync(artistId);
      if artistReleases.None? {
        assert Elements(genres) == {};
        return Returned(genres);
      }
      if artistReleases.value.releases.None? {
        return Threw(ArgumentNullException);
      }
      var releaseIds := GenreReleaseIds(artistReleases.value.releases.value);
      genres := CollectGenres(releaseIds);
      assert ArtistGenres(client.catalog, artistId) ==
        Resolution(Returned(GenresOf(client.catalog, releaseIds)), [GetArtistReleaseCall(artistId)] + ReleaseFetches(releaseIds));
      return Returned(genres);
    }

    /** The outer genre loop: fetch each release and add the genres it carries. */
    method CollectGenres(releaseIds: seq<nat>) returns (genres: seq<string>)
      modifies client`log
      ensures NoDuplicates(genres) && Elements(genres) == GenresOf(client.catalog, releaseIds)
      ensures client.log == old(client.log) + ReleaseFetches(releaseIds)
    {
      genres := [];
      for i := 0 to |releaseIds|
        invariant NoDuplicates(genres) && Elements(genres) == GenresOf(client.catalog, releaseIds[..i])
        invariant client.log == old(client.log) + ReleaseFetches(releaseIds[..i])
      {
        assert releaseIds[..i + 1][..i] == releaseIds[..i];
        var release := client.GetReleaseAsync(releaseIds[i]);
        if release.Some? && release.value.genres.Some? {
          genres := AddMissing(genres, release.value.genres.value);
        }
        assert GenresOf(client.catalog, releaseIds[..i + 1]) ==
          GenresOf(client.catalog, releaseIds[..i]) + ReleaseGenres(client.catalog, releaseIds[i]);
      }
      assert releaseIds[..|releaseIds|] == releaseIds;
    }

    /** The inner genre loop: add each genre the set does not contain yet. */
    static method AddMissing(genres: seq<string>, releaseGenres: seq<string>) returns (r: seq<string>)
      requires NoDuplicates(genres)
      ensures NoDuplicates(r)
      ensures Elements(r) == Elements(genres) + Elements(releaseGenres)
    {
      r := genres;
      for j := 0 to |releaseGenres|
        invariant NoDuplicates(r)
        invariant Elements(r) == Elements(genres) + Elements(releaseGenres[..j])
      {
        assert releaseGenres[..j + 1] == releaseGenres[..j] + [releaseGenres[j]];
        ElementsAppend(releaseGenres[..j], releaseGenres[j]);
        if releaseGenres[j] !in r {
          ElementsAppend(r, releaseGenres[j]);
          r := r + [releaseGenres[j]];
        }
      }
      assert releaseGenres[..|releaseGenres|] == releaseGenres;
    }

    method GetImages(item: BaseItem) returns (r: Outcome<seq<RemoteImageInfo>>)
      modifies client`log
      ensures r == ArtistImages(client.catalog, item).outcome
      ensures client.log == old(client.log) + ArtistImages(client.catalog, item).calls
    {
      var images: seq<RemoteImageInfo> := [];
      if !item.ArtistItem? {
        return Returned(images);
      }
      var artistId := MusicArtistExensions.GetArtistId(item.artist);
      if IsNullOrEmpty(artistId) {
        return Returned(images);
      }
      var id := ParseInt32(artistId.value);
      if id.Threw? {
        return Threw(id.exception);
      }
      var discogsArtist := client.GetArtistAsync(id.value);
      if discogsArtist.None? {
        return Returned(images);
      }
      if discogsArtist.value.images.None? {
        return Returned(images);
      }
      var artistImages := discogsArtist.value.images.value;
      if |artistImages| == 0 {
        // The source reads images[0] here and throws; the model returns the empty list.
        assert RemoteImages.ImageList(artistImages) == [];
        return Returned(images);
      }
      images := images + [RemoteImages.Info(artistImages[0], Primary)];
      for i := 1 to |artistImages|
        invariant images == RemoteImages.ImageList(artistImages[..i])
      {
        images := images + [RemoteImages.Info(artistImages[i], Backdrop)];
      }
      assert artistImages[..|artistImages|] == artistImages;
      return Returned(images);
    }
  }
}

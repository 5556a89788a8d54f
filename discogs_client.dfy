/**
 * The Discogs catalog as the plugin sees it through its client library: a fixed oracle of partial maps
 * (an absent entry is a call that returned null, whether not found or failed in transport) and a client
 * object that answers from the oracle and records every call it receives.
 */
module DiscogsClient {
  import opened Wrappers

  datatype ArtistRef = ArtistRef(id: nat, name: string)

  datatype Image = Image(uri: string)

  /** A release; `masterId` 0 means the release has no master. Null-able arrays are `Option`s. */
  datatype Release = Release(
    id: nat,
    masterId: nat,
    title: string,
    year: int,
    thumb: string,
    uri: string,
    artists: seq<ArtistRef>,
    genres: Option<seq<string>>,
    images: Option<seq<Image>>)

  datatype Master = Master(id: nat, mainRelease: nat)

  datatype Artist = Artist(id: nat, name: string, profile: string, uri: string, images: Option<seq<Image>>)

  datatype EntityType = ReleaseEntity | ArtistEntity

  /** `DiscogsSearch`: the entity type and the optional query fields the plugin fills in. */
  datatype SearchQuery = SearchQuery(
    entityType: EntityType,
    query: Option<string>,
    releaseTitle: Option<string>,
    artist: Option<string>,
    year: Option<int>)

  datatype SearchResult = SearchResult(id: nat, title: string, thumb: string, uri: string)

  datatype SearchResults = SearchResults(results: Option<seq<SearchResult>>)

  /** One entry of an artist's release listing; `role` is e.g. "Main". */
  datatype ArtistRelease = ArtistRelease(id: nat, title: string, mainRelease: nat, role: string)

  datatype ArtistReleases = ArtistReleases(releases: Option<seq<ArtistRelease>>)

  /** What the catalog answers to each request, for the duration of one resolution. */
  datatype Catalog = Catalog(
    releases: map<nat, Release>,
    masters: map<nat, Master>,
    artists: map<nat, Artist>,
    artistReleases: map<nat, ArtistReleases>,
    search: SearchQuery -> Option<SearchResults>)
  {
    function Release(id: nat): Option<Release> {
      if id in releases then Some(releases[id]) else None
    }

    function Master(id: nat): Option<Master> {
      if id in masters then Some(masters[id]) else None
    }

    function Artist(id: nat): Option<Artist> {
      if id in artists then Some(artists[id]) else None
    }

    function ArtistReleaseListing(artistId: nat): Option<ArtistReleases> {
      if artistId in artistReleases then Some(artistReleases[artistId]) else None
    }
  }

  /** A request made to the catalog. */
  datatype Call =
    | GetReleaseCall(releaseId: nat)
    | GetMasterCall(masterId: nat)
    | GetArtistCall(artistId: nat)
    | GetArtistReleaseCall(artistId: nat)
    | SearchCall(query: SearchQuery)

  /** The result of a resolution together with the catalog requests it made, in order. */
  datatype Resolution<+T> = Resolution(outcome: Outcome<T>, calls: seq<Call>)

  /** `DiscogsClient.DiscogsClient`: answers from the catalog and logs each request. */
  class Client {
    const catalog: Catalog
    ghost var log: seq<Call>

    constructor (catalog: Catalog)
      ensures this.catalog == catalog && log == []
    {
      this.catalog := catalog;
      log := [];
    }

    method GetReleaseAsync(id: nat) returns (r: Option<Release>)
      modifies this`log
      ensures r == catalog.Release(id)
      ensures log == old(log) + [GetReleaseCall(id)]
    {
      r := catalog.Release(id);
      log := log + [GetReleaseCall(id)];
    }

    method GetMasterAsync(id: nat) returns (r: Option<Master>)
      modifies this`log
      ensures r == catalog.Master(id)
      ensures log == old(log) + [GetMasterCall(id)]
    {
      r := catalog.Master(id);
      log := log + [GetMasterCall(id)];
    }

    method GetArtistAsync(id: nat) returns (r: Option<Artist>)
      modifies this`log
      ensures r == catalog.Artist(id)
      ensures log == old(log) + [GetArtistCall(id)]
    {
      r := catalog.Artist(id);
      log := log + [GetArtistCall(id)];
    }

    /** `GetArtistReleaseAsync(artistId, null, null)`: the unpaged, unsorted listing. */
    method GetArtistReleaseAsync(artistId: nat) returns (r: Option<ArtistReleases>)
      modifies this`log
      ensures r == catalog.ArtistReleaseListing(artistId)
      ensures log == old(log) + [GetArtistReleaseCall(artistId)]
    {
      r := catalog.ArtistReleaseListing(artistId);
      log := log + [GetArtistReleaseCall(artistId)];
    }

    /** `SearchAsync(query, null)`: the first page of results. */
    method SearchAsync(query: SearchQuery) returns (r: Option<SearchResults>)
      modifies this`log
      ensures r == catalog.search(query)
      ensures log == old(log) + [SearchCall(query)]
    {
      r := catalog.search(query);
      log := log + [SearchCall(query)];
    }
  }
}

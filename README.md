# Discogs metadata plugin for Jellyfin: a Dafny model

This project models the part of the Jellyfin Discogs plugin that links a library's albums and artists
to Discogs records:

- Reading stored Discogs IDs back from a host item. These are the `Discogs-Album`, `Discogs-AlbumMaster`,
  `Discogs-Artist` and `Discogs-AlbumArtist` provider IDs. The fallbacks differ by ID:
  - an album's release ID falls back to its tracks;
  - its master ID has no fallback;
  - its artist ID falls back to the parent artist first, then to the tracks.
- The album resolver:
  - search candidates, by stored release ID or by a release query;
  - metadata through the chain master → release ID → artist release listing;
  - the release's images.
- The artist resolver:
  - search candidates, by stored ID or by an artist query;
  - metadata, with the optional replacement of the artist's name;
  - images;
  - the genre collection from the artist's "Main" releases. The plugin does not use this yet.

The Discogs web service is a fixed oracle, `DiscogsClient.Catalog`: partial maps of releases, masters,
artists and release listings, plus a search function. An absent entry is a call that returned null.
`DiscogsClient.Client` answers from the oracle and appends every request to a ghost log. Each provider
operation gets two definitions:

- a specification function returning a `Resolution`: the outcome (a value, or the exception the code
  would raise) and the ordered list of catalog requests;
- a method on the provider class. It calls the client, runs the source's loops, and is proved equal to
  the specification function, outcome and request log both.

The lemmas state what those specifications mean:

- ID precedence;
- which requests are and are not made;
- the order of candidates and skipped failures;
- genre and image contents;
- the round trip of numeric IDs through their stored strings.

Modules follow the source's files:

| module | file |
|---|---|
| `Constants` | constants.dfy |
| `AlbumInfoExtensions` | album_info_extensions.dfy |
| `ArtistInfoExtensions` | artist_info_extensions.dfy |
| `MusicAlbumExensions` | music_album_exensions.dfy |
| `MusicArtistExensions` | music_artist_exensions.dfy |
| `AlbumProvider` | album_provider.dfy |
| `ArtistProvider` | artist_provider.dfy |

Supporting modules:

| module | what it holds |
|---|---|
| `Wrappers` | Option and Outcome |
| `Text` | the .NET string operations used |
| `MediaBrowser` | the host's item, search result, metadata result and image types |
| `DiscogsClient` | the catalog, the client, calls and resolutions |
| `RemoteImages` | the image list both providers build |

## Model

| member | source | states |
|---|---|---|
| Constants.KeysExtendBase | Jellyfin.Plugin.Discogs/Constants.cs:10-15 | every provider-ID key is "Discogs-" followed by a non-empty suffix |
| Constants.KeysDistinct | Jellyfin.Plugin.Discogs/Constants.cs:12-15 | the four keys are pairwise distinct, so storing one ID never overwrites another |
| Text.ToUpperInvariant | Jellyfin.Plugin.Discogs/Providers/AlbumProvider.cs:269 | each lower-case ASCII letter maps to its own upper-case letter (32 code points lower); every other character is unchanged |
| Text.EqualsOrdinalIgnoreCaseIsEquivalence | Jellyfin.Plugin.Discogs/Providers/AlbumProvider.cs:269 | ordinal-ignore-case equality is reflexive, symmetric and transitive |
| Text.IgnoreCaseSeesDigits | Jellyfin.Plugin.Discogs/Providers/ArtistProvider.cs:260 | for all strings: strings of different lengths are never equal ignoring case, nor are strings that differ at a position where either holds a digit |
| Text.MainMatchesAnyCase | Jellyfin.Plugin.Discogs/Providers/ArtistProvider.cs:260 | "main" and "MAIN" both equal "Main" ignoring case |
| Text.ParseInt32 | Jellyfin.Plugin.Discogs/Providers/AlbumProvider.cs:74 | a string parses exactly when it is a non-empty run of digits whose value fits in an Int32, and then to that value; a larger number raises OverflowException; any other string raises FormatException |
| Text.NatToString | Jellyfin.Plugin.Discogs/Providers/AlbumProvider.cs:99 | an ID renders as a non-empty string of decimal digits |
| Text.DigitsValueOfNatToString | Jellyfin.Plugin.Discogs/Providers/AlbumProvider.cs:99 | the digits of a rendered ID denote that ID |
| Text.ParseInt32OfNatToString | Jellyfin.Plugin.Discogs/Providers/ArtistProvider.cs:123 | parsing a stored 32-bit ID gives the same ID back |
| Text.ParseInt32OverflowOfNatToString | Jellyfin.Plugin.Discogs/Providers/AlbumProvider.cs:74 | a rendered number above Int32.MaxValue raises OverflowException when parsed |
| Text.NatToStringNotEmpty | Jellyfin.Plugin.Discogs/Providers/AlbumProvider.cs:305 | a rendered ID is never empty, so storing it never removes a provider ID |
| Text.ParseInt32Examples | Jellyfin.Plugin.Discogs/Providers/AlbumProvider.cs:207-211 | "0" parses to 0; a string containing a non-digit raises FormatException |
| MediaBrowser.GetProviderId | Jellyfin.Plugin.Discogs/Extensions/MusicArtistExensions.cs:17 | a key's stored value when present, null exactly when absent |
| MediaBrowser.SetProviderId | Jellyfin.Plugin.Discogs/Providers/AlbumProvider.cs:305-312 | a non-empty value is stored under the key, a null or empty one removes it, and every other key is unchanged |
| MediaBrowser.AddGenre | Jellyfin.Plugin.Discogs/Providers/AlbumProvider.cs:292 | a genre is appended unless one equal to it ignoring case is already present |
| AlbumInfoExtensions.FirstSongId | Jellyfin.Plugin.Discogs/Extensions/AlbumInfoExtensions.cs:41-42 | the value of the first track with a non-empty ID under the key, or null when no track has one |
| AlbumInfoExtensions.IsFirstSongIdUnique | Jellyfin.Plugin.Discogs/Extensions/AlbumInfoExtensions.cs:41-42 | the first-non-empty-track value is unique |
| AlbumInfoExtensions.FirstSongIdReadsOnlyKey | Jellyfin.Plugin.Discogs/Extensions/AlbumInfoExtensions.cs:41-42 | track lists that agree track by track on the key's entry have the same first track ID, whatever else the tracks store |
| AlbumInfoExtensions.FlattenAlbumArtistsMembers | Jellyfin.Plugin.Discogs/Extensions/AlbumInfoExtensions.cs:19-20 | a name is in the flattened track-artist list exactly when some track lists it |
| AlbumInfoExtensions.FirstNonEmpty | Jellyfin.Plugin.Discogs/Extensions/AlbumInfoExtensions.cs:19-20 | null exactly when every name is empty; otherwise a non-empty name with only empty names before it |
| AlbumInfoExtensions.GetAlbumArtist | Jellyfin.Plugin.Discogs/Extensions/AlbumInfoExtensions.cs:17-28 | the first non-empty track artist in track order; otherwise the album's first artist, or "" when it lists none |
| AlbumInfoExtensions.AlbumArtistComesFromATrack | Jellyfin.Plugin.Discogs/Extensions/AlbumInfoExtensions.cs:19-25 | when some track names an album artist, the result is a non-empty name that one of the tracks lists |
| AlbumInfoExtensions.GetReleaseId | Jellyfin.Plugin.Discogs/Extensions/AlbumInfoExtensions.cs:35-46 | the album's own non-empty release ID wins; otherwise the first track's non-empty one; never "" |
| AlbumInfoExtensions.GetReleaseMasterId | Jellyfin.Plugin.Discogs/Extensions/AlbumInfoExtensions.cs:53-56 | exactly the album's own stored master entry, with no track fallback |
| AlbumInfoExtensions.GetDiscogsArtistId | Jellyfin.Plugin.Discogs/Extensions/AlbumInfoExtensions.cs:63-79 | the album's own album-artist ID, else the parent artist's artist ID, else the first track's album-artist ID; never "" |
| AlbumInfoExtensions.ReleaseIdIgnoresTracksWhenOwnIdSet | Jellyfin.Plugin.Discogs/Extensions/AlbumInfoExtensions.cs:37-40 | with its own release ID set, an album's tracks cannot change its release ID |
| AlbumInfoExtensions.ReleaseIdFromFirstTrack | Jellyfin.Plugin.Discogs/Extensions/AlbumInfoExtensions.cs:42-45 | without its own ID, the album takes the ID of the first track that carries one |
| AlbumInfoExtensions.MasterIdReadsOnlyOwnIds | Jellyfin.Plugin.Discogs/Extensions/AlbumInfoExtensions.cs:53-56 | two albums with the same own master entry have the same master ID, whatever their tracks and parent |
| AlbumInfoExtensions.DiscogsArtistIdPrecedence | Jellyfin.Plugin.Discogs/Extensions/AlbumInfoExtensions.cs:65-78 | for every album: a non-empty parent artist ID makes the tracks irrelevant, and a non-empty own album-artist ID makes the parent's irrelevant |
| AlbumInfoExtensions.TrackArtistKeyIsNotFollowed | Jellyfin.Plugin.Discogs/Extensions/AlbumInfoExtensions.cs:71-76 | for every album and every track, whatever the track stores under "Discogs-Artist" leaves the album artist's ID unchanged; a lone track carrying only that key gives no ID |
| ArtistInfoExtensions.GetArtistId | Jellyfin.Plugin.Discogs/Extensions/ArtistInfoExtensions.cs:17-28 | the artist's own non-empty ID wins; otherwise the first track's non-empty album-artist ID; never "" |
| ArtistInfoExtensions.ArtistIdIgnoresTracksWhenOwnIdSet | Jellyfin.Plugin.Discogs/Extensions/ArtistInfoExtensions.cs:19-20 | with its own ID set, an artist's tracks cannot change its ID |
| ArtistInfoExtensions.ArtistIdAbsent | Jellyfin.Plugin.Discogs/Extensions/ArtistInfoExtensions.cs:17-28 | with no own ID and no track carrying one, the ID is null |
| ArtistInfoExtensions.TrackFallbackReadsAlbumArtistKey | Jellyfin.Plugin.Discogs/Extensions/ArtistInfoExtensions.cs:21-24 | for every artist and every track, whatever the track stores under "Discogs-Artist" leaves the ID unchanged; a non-empty "Discogs-AlbumArtist" value on a track with none before it is the ID of an artist without its own |
| MusicAlbumExensions.GetReleaseId | Jellyfin.Plugin.Discogs/Extensions/MusicAlbumExensions.cs:16-21 | the item's stored "Discogs-Album" value, or null when the key is absent |
| MusicAlbumExensions.ReleaseIdReadsOnlyAlbumKey | Jellyfin.Plugin.Discogs/Extensions/MusicAlbumExensions.cs:18 | items that agree on "Discogs-Album" get the same release ID |
| MusicAlbumExensions.NoTrackFallback | Jellyfin.Plugin.Discogs/Extensions/MusicAlbumExensions.cs:16-21 | every library album without the key has no release ID, whatever else it stores, while an `AlbumInfo` with the same provider IDs takes its first track's ID |
| MusicArtistExensions.GetArtistId | Jellyfin.Plugin.Discogs/Extensions/MusicArtistExensions.cs:15-20 | the item's stored "Discogs-Artist" value, or null when the key is absent |
| MusicArtistExensions.StoredEmptyIdIsReturned | Jellyfin.Plugin.Discogs/Extensions/MusicArtistExensions.cs:17-19 | a stored empty ID is returned as "", not turned into null |
| DiscogsClient.Client.constructor | Jellyfin.Plugin.Discogs/Providers/AlbumProvider.cs:42-46 | a client over the given catalog, with no requests yet |
| DiscogsClient.Client.GetReleaseAsync | Jellyfin.Plugin.Discogs/Providers/AlbumProvider.cs:74 | the catalog's release, or null; the request is logged |
| DiscogsClient.Client.GetMasterAsync | Jellyfin.Plugin.Discogs/Providers/AlbumProvider.cs:226 | the catalog's master, or null; the request is logged |
| DiscogsClient.Client.GetArtistAsync | Jellyfin.Plugin.Discogs/Providers/ArtistProvider.cs:74 | the catalog's artist, or null; the request is logged |
| DiscogsClient.Client.GetArtistReleaseAsync | Jellyfin.Plugin.Discogs/Providers/ArtistProvider.cs:253 | the catalog's release listing for the artist, or null; the request is logged |
| DiscogsClient.Client.SearchAsync | Jellyfin.Plugin.Discogs/Providers/AlbumProvider.cs:129 | the catalog's first result page for the query, or null; the request is logged |
| RemoteImages.ImageListAsWritten | Jellyfin.Plugin.Discogs/Providers/AlbumProvider.cs:387-406 | as written, with an IndexOutOfRangeException on an empty array (exhibited by EmptyImageArrayThrows) |
| RemoteImages.ImageListShape | Jellyfin.Plugin.Discogs/Providers/AlbumProvider.cs:387-406 | one image info per image, in order, each with its URI and provider name "Discogs"; only the first is Primary, the rest Backdrop |
| RemoteImages.EmptyImageArrayThrows | Jellyfin.Plugin.Discogs/Providers/ArtistProvider.cs:336 | as written, an empty image array throws; the corrected list is empty |
| RemoteImages.ImageListAgreesWhenNonEmpty | Jellyfin.Plugin.Discogs/Providers/ArtistProvider.cs:336-355 | on every non-empty array the code as written and the corrected list agree |
| AlbumProvider.ReleaseCandidate | Jellyfin.Plugin.Discogs/Providers/AlbumProvider.cs:81-102 | a candidate named after the release, with its year and thumbnail and no search provider name; the nested artist (named after the release's first artist, with provider name "Discogs" and its "Discogs-Artist" ID) is the release's first artist; the release ID is stored; the master ID is stored always on the ID path and only when it is not 0 on the query path |
| AlbumProvider.ResultFetches | Jellyfin.Plugin.Discogs/Providers/AlbumProvider.cs:136-180 | one release request per search result, for that result's ID, in order |
| AlbumProvider.QueryCandidatesAppend | Jellyfin.Plugin.Discogs/Providers/AlbumProvider.cs:136-180 | candidates of concatenated result lists are the concatenated candidates, so result order is kept |
| AlbumProvider.QueryCandidatesCount | Jellyfin.Plugin.Discogs/Providers/AlbumProvider.cs:136-180 | never more candidates than results; exactly one per result, in order, when every fetch succeeds |
| AlbumProvider.QueryCandidatesSkipFailedFetch | Jellyfin.Plugin.Discogs/Providers/AlbumProvider.cs:141-179 | a result whose release cannot be fetched is dropped and the others keep their order |
| AlbumProvider.SecondOfThreeFetchesFails | Jellyfin.Plugin.Discogs/Providers/AlbumProvider.cs:136-180 | three results whose second fetch fails give the first and third candidates, in that order |
| AlbumProvider.SearchWithReleaseId | Jellyfin.Plugin.Discogs/Providers/AlbumProvider.cs:70-107 | with a stored numeric release ID: one release fetch and no search; one candidate when found (its master key stored even when 0), none otherwise |
| AlbumProvider.UnparseableReleaseIdThrows | Jellyfin.Plugin.Discogs/Providers/AlbumProvider.cs:74 | a stored release ID that int.Parse rejects raises before any request: FormatException for a non-number, OverflowException for a number above Int32.MaxValue |
| AlbumProvider.SearchWithoutReleaseId | Jellyfin.Plugin.Discogs/Providers/AlbumProvider.cs:109-185 | without one: a single release query on the name, the artist only when non-empty and the year only when given; then one fetch per result in order; a null page gives no candidates |
| AlbumProvider.AlbumProvider.constructor | Jellyfin.Plugin.Discogs/Providers/AlbumProvider.cs:32-47 | the provider talks to the given client; a configured token is required |
| AlbumProvider.AlbumProvider.GetSearchResults | Jellyfin.Plugin.Discogs/Providers/AlbumProvider.cs:53-189 | returns exactly AlbumSearch's outcome and makes exactly its requests |
| AlbumProvider.AlbumProvider.BuildSearchQuery | Jellyfin.Plugin.Discogs/Providers/AlbumProvider.cs:112-127 | the release query with title, optional artist and optional year |
| AlbumProvider.AlbumProvider.FetchCandidates | Jellyfin.Plugin.Discogs/Providers/AlbumProvider.cs:136-180 | the loop keeps a candidate per successful release fetch; the log grows by one fetch per result |
| AlbumProvider.EffectiveMasterId | Jellyfin.Plugin.Discogs/Providers/AlbumProvider.cs:207-211 | a stored master ID of "0" counts as no master; any other stored value is kept |
| AlbumProvider.FirstTitleMatch | Jellyfin.Plugin.Discogs/Providers/AlbumProvider.cs:269 | the first listing entry whose title equals the album name ignoring case, or null when none does |
| AlbumProvider.TitleMatchKeepsLengthAndDigits | Jellyfin.Plugin.Discogs/Providers/AlbumProvider.cs:269 | a matched title has the album name's length and the same digit wherever either holds one |
| AlbumProvider.AddGenresFromRelease | Jellyfin.Plugin.Discogs/Providers/AlbumProvider.cs:286-295 | every genre on the item is a non-empty genre of the release |
| AlbumProvider.AddGenresCoversRelease | Jellyfin.Plugin.Discogs/Providers/AlbumProvider.cs:286-295 | every non-empty genre of the release is on the item, up to letter case |
| AlbumProvider.AddGenresNoDuplicates | Jellyfin.Plugin.Discogs/Providers/AlbumProvider.cs:286-295 | no two genres on the item are equal ignoring case |
| AlbumProvider.PrimaryImages | Jellyfin.Plugin.Discogs/Providers/AlbumProvider.cs:297-303 | every release image, in order, offered as Primary |
| AlbumProvider.ItemProviderIds | Jellyfin.Plugin.Discogs/Providers/AlbumProvider.cs:305-312 | the item stores the release ID and the artist ID used, and the master ID exactly when it is not 0 |
| AlbumProvider.MasterIdZeroIsAbsent | Jellyfin.Plugin.Discogs/Providers/AlbumProvider.cs:207-211 | a stored master ID of "0" never leads to a master request |
| AlbumProvider.MasterPathWins | Jellyfin.Plugin.Discogs/Providers/AlbumProvider.cs:223-239 | when the master and its main release are found, that release is the result and only those two requests are made |
| AlbumProvider.FailedMasterFallsBackToReleaseId | Jellyfin.Plugin.Discogs/Providers/AlbumProvider.cs:223-239 | when the master cannot be fetched, the stored release ID is fetched next |
| AlbumProvider.NoIdsNoRequests | Jellyfin.Plugin.Discogs/Providers/AlbumProvider.cs:192-321 | with no release, master or artist ID, no request is made and the result has no metadata |
| AlbumProvider.NoReleaseOrArtistIdGivesNoMetadata | Jellyfin.Plugin.Discogs/Providers/AlbumProvider.cs:233-277 | with no release or artist ID and nothing found through the master, the result has no metadata and no further request is made |
| AlbumProvider.ArtistListingUnavailable | Jellyfin.Plugin.Discogs/Providers/AlbumProvider.cs:240-267 | a missing listing or a null release array gives no metadata after the single listing request |
| AlbumProvider.ArtistListingMatch | Jellyfin.Plugin.Discogs/Providers/AlbumProvider.cs:240-277 | on a title match the listing and then the main release of the first entry titled like the album are fetched, that release is the resolved one, and the result is its metadata, or none when the fetch fails; no matching title gives no metadata |
| AlbumProvider.ReleaseMetadataContents | Jellyfin.Plugin.Discogs/Providers/AlbumProvider.cs:280-315 | a found release gives HasMetadata with its title, year, URI, images and provider IDs; the artist ID comes from the input |
| AlbumProvider.MetadataIsReleaseOrNothing | Jellyfin.Plugin.Discogs/Providers/AlbumProvider.cs:192-321 | every non-throwing outcome is either empty or the metadata of a release the catalog holds |
| AlbumProvider.AlbumProvider.GetMetadata | Jellyfin.Plugin.Discogs/Providers/AlbumProvider.cs:192-321 | returns exactly AlbumMetadata's outcome and makes exactly its requests |
| AlbumProvider.AlbumProvider.FindByMaster | Jellyfin.Plugin.Discogs/Providers/AlbumProvider.cs:223-231 | the master step, equal to ViaMaster: the master's main release or null, and the same requests |
| AlbumProvider.AlbumProvider.FindByArtistListing | Jellyfin.Plugin.Discogs/Providers/AlbumProvider.cs:240-277 | the artist-listing step, equal to ViaArtistReleases: the matched main release or null, and the same requests |
| AlbumProvider.AlbumProvider.ReleaseToMetadata | Jellyfin.Plugin.Discogs/Providers/AlbumProvider.cs:280-312 | the genre and image loops and the ID stores build exactly ReleaseMetadata |
| AlbumProvider.ImagesOfAlbum | Jellyfin.Plugin.Discogs/Providers/AlbumProvider.cs:347-409 | no request for a non-album item or one without a release ID; a failed fetch or null images give none; otherwise exactly the image list of the release's images (see ImageListShape), the first Primary |
| AlbumProvider.AlbumProvider.GetImages | Jellyfin.Plugin.Discogs/Providers/AlbumProvider.cs:347-409 | returns exactly AlbumImages's outcome and makes exactly its requests |
| ArtistProvider.CandidateOfArtist | Jellyfin.Plugin.Discogs/Providers/ArtistProvider.cs:76-93 | the artist's name, its first image when it has any, and the stored ID unchanged; null images raise NullReferenceException |
| ArtistProvider.CandidatesOfResults | Jellyfin.Plugin.Discogs/Providers/ArtistProvider.cs:113-126 | one candidate per search result, in order, with its title, thumbnail and ID |
| ArtistProvider.SearchWithArtistId | Jellyfin.Plugin.Discogs/Providers/ArtistProvider.cs:69-95 | with a stored ID: one artist fetch and no query; at most one candidate, which carries the stored ID |
| ArtistProvider.SearchWithoutArtistId | Jellyfin.Plugin.Discogs/Providers/ArtistProvider.cs:96-132 | without one: a single artist query on the name and nothing else; one candidate per result whose stored ID parses back to the result's ID |
| ArtistProvider.SearchWithoutArtistIdNullResponse | Jellyfin.Plugin.Discogs/Providers/ArtistProvider.cs:106-112 | an absent search response gives no candidates after the single query |
| ArtistProvider.ArtistProvider.constructor | Jellyfin.Plugin.Discogs/Providers/ArtistProvider.cs:31-46 | the provider talks to the given client; a configured token is required |
| ArtistProvider.ArtistProvider.GetSearchResults | Jellyfin.Plugin.Discogs/Providers/ArtistProvider.cs:52-135 | returns exactly ArtistSearch's outcome and makes exactly its requests |
| ArtistProvider.ArtistMetadataContents | Jellyfin.Plugin.Discogs/Providers/ArtistProvider.cs:208-228 | a found artist gives HasMetadata with its URI, profile and ID, no genres, no images, and the name only when configured |
| ArtistProvider.ReplaceArtistNameOnlyChangesName | Jellyfin.Plugin.Discogs/Providers/ArtistProvider.cs:211-214 | the replace-name setting changes the item's name and nothing else, and no request |
| ArtistProvider.MetadataUsesFirstHit | Jellyfin.Plugin.Discogs/Providers/ArtistProvider.cs:156-196 | without a stored ID only the first search hit is fetched, it is the resolved artist, and the result is its metadata, or none when the fetch fails; no response or no hits give no metadata |
| ArtistProvider.MetadataWithArtistId | Jellyfin.Plugin.Discogs/Providers/ArtistProvider.cs:197-207 | with a stored ID the artist is fetched directly and no search is sent; a missing artist gives no metadata |
| ArtistProvider.MetadataReadsNoReleases | Jellyfin.Plugin.Discogs/Providers/ArtistProvider.cs:216-221 | metadata never requests releases or listings, since the genre collection is not called |
| ArtistProvider.ArtistProvider.GetMetadata | Jellyfin.Plugin.Discogs/Providers/ArtistProvider.cs:138-231 | returns exactly ArtistMetadata's outcome and makes exactly its requests |
| ArtistProvider.MainReleaseIdsMembers | Jellyfin.Plugin.Discogs/Providers/ArtistProvider.cs:260 | an ID is selected exactly when some listing entry with role "Main" (ignoring case) carries it |
| ArtistProvider.MainRoleInAnyCaseIsSelected | Jellyfin.Plugin.Discogs/Providers/ArtistProvider.cs:260 | an entry whose role is written "main" or "MAIN" is selected |
| ArtistProvider.DistinctProperties | Jellyfin.Plugin.Discogs/Providers/ArtistProvider.cs:260 | Distinct keeps every element and no element twice |
| ArtistProvider.ElementsAppend | Jellyfin.Plugin.Discogs/Providers/ArtistProvider.cs:274-280 | the elements of a concatenation are the union of the elements |
| ArtistProvider.GenresOfMembers | Jellyfin.Plugin.Discogs/Providers/ArtistProvider.cs:261-283 | a genre is collected exactly when some fetched release carries it |
| ArtistProvider.ReleaseFetches | Jellyfin.Plugin.Discogs/Providers/ArtistProvider.cs:261-265 | one release request per ID, in order |
| ArtistProvider.ArtistGenresFetchesEachMainReleaseOnce | Jellyfin.Plugin.Discogs/Providers/ArtistProvider.cs:253-283 | after the listing request, each main-role release is fetched exactly once and no other release is fetched |
| ArtistProvider.ArtistGenresAreMainReleaseGenres | Jellyfin.Plugin.Discogs/Providers/ArtistProvider.cs:260-283 | a genre is returned exactly when a fetched main release carries it |
| ArtistProvider.ArtistProvider.GetArtistGenres | Jellyfin.Plugin.Discogs/Providers/ArtistProvider.cs:248-286 | the returned genres are exactly ArtistGenres's set, with no duplicates; it throws when the specification throws; the requests are ArtistGenres's |
| ArtistProvider.ArtistProvider.CollectGenres | Jellyfin.Plugin.Discogs/Providers/ArtistProvider.cs:261-283 | the outer loop fetches each ID in order and collects exactly GenresOf those releases, each genre once |
| ArtistProvider.ArtistProvider.AddMissing | Jellyfin.Plugin.Discogs/Providers/ArtistProvider.cs:274-280 | the inner loop adds each genre not yet present, so the list holds both inputs' genres, each once |
| ArtistProvider.ImagesOfArtist | Jellyfin.Plugin.Discogs/Providers/ArtistProvider.cs:297-358 | no request for a non-artist item or one without an ID; a failed fetch or null images give none; otherwise exactly the image list of the artist's images (see ImageListShape), the first Primary |
| ArtistProvider.ArtistProvider.GetImages | Jellyfin.Plugin.Discogs/Providers/ArtistProvider.cs:297-358 | returns exactly ArtistImages's outcome and makes exactly its requests |
| Text.EqualsOrdinalIgnoreCase | Jellyfin.Plugin.Discogs/Providers/AlbumProvider.cs:269 | ordinal-ignore-case equality: same length and equal after ASCII upper-casing; its meaning is stated by EqualsOrdinalIgnoreCaseIsEquivalence and IgnoreCaseSeesDigits |
| Text.DigitsValue | Jellyfin.Plugin.Discogs/Providers/AlbumProvider.cs:74 | the number a digit string denotes; DigitsValueOfNatToString shows it inverts NatToString |
| AlbumInfoExtensions.FlattenAlbumArtists | Jellyfin.Plugin.Discogs/Extensions/AlbumInfoExtensions.cs:19 | every track's album-artist names, in track order; FlattenAlbumArtistsMembers states its membership |
| RemoteImages.ImageList | Jellyfin.Plugin.Discogs/Providers/AlbumProvider.cs:387-406 | the corrected image list (see Findings); ImageListShape states its contents and ImageListAgreesWhenNonEmpty ties it to the code as written |
| AlbumProvider.AlbumSearchQuery | Jellyfin.Plugin.Discogs/Providers/AlbumProvider.cs:112-127 | the query of a search by name; SearchWithoutReleaseId states its fields |
| AlbumProvider.ArtistCandidate | Jellyfin.Plugin.Discogs/Providers/AlbumProvider.cs:88-97 | the nested artist candidate; ReleaseCandidate states its fields |
| AlbumProvider.CandidatesFor | Jellyfin.Plugin.Discogs/Providers/AlbumProvider.cs:141-179 | the candidates for one search result; QueryCandidatesSkipFailedFetch states its effect |
| AlbumProvider.QueryCandidates | Jellyfin.Plugin.Discogs/Providers/AlbumProvider.cs:136-180 | the candidates for a result list; QueryCandidatesAppend, QueryCandidatesCount and QueryCandidatesSkipFailedFetch state its meaning |
| AlbumProvider.SearchById | Jellyfin.Plugin.Discogs/Providers/AlbumProvider.cs:70-107 | the search by release ID; SearchWithReleaseId states it |
| AlbumProvider.SearchByQuery | Jellyfin.Plugin.Discogs/Providers/AlbumProvider.cs:109-185 | the search by name; SearchWithoutReleaseId states it |
| AlbumProvider.AlbumSearch | Jellyfin.Plugin.Discogs/Providers/AlbumProvider.cs:58-189 | what GetSearchResults returns and requests; SearchWithReleaseId, UnparseableReleaseIdThrows and SearchWithoutReleaseId state it case by case |
| AlbumProvider.ViaMaster | Jellyfin.Plugin.Discogs/Providers/AlbumProvider.cs:223-231 | the master step; MasterIdZeroIsAbsent, MasterPathWins and FailedMasterFallsBackToReleaseId state it |
| AlbumProvider.ViaReleaseId | Jellyfin.Plugin.Discogs/Providers/AlbumProvider.cs:233-239 | the release-ID step; FailedMasterFallsBackToReleaseId states it |
| AlbumProvider.ViaArtistReleases | Jellyfin.Plugin.Discogs/Providers/AlbumProvider.cs:240-277 | the artist-listing step: its requests and the fetched main release of the first title match; ArtistListingUnavailable and ArtistListingMatch state it |
| AlbumProvider.ResolveRelease | Jellyfin.Plugin.Discogs/Providers/AlbumProvider.cs:223-277 | the release GetMetadata settles on through master, release ID and listing; MasterPathWins, FailedMasterFallsBackToReleaseId, NoReleaseOrArtistIdGivesNoMetadata and ArtistListingMatch (the first title match's main release) state it |
| AlbumProvider.AddGenres | Jellyfin.Plugin.Discogs/Providers/AlbumProvider.cs:286-295 | the genre loop; AddGenresFromRelease, AddGenresCoversRelease and AddGenresNoDuplicates state its meaning |
| AlbumProvider.ReleaseMetadata | Jellyfin.Plugin.Discogs/Providers/AlbumProvider.cs:280-315 | the metadata of a found release; ReleaseMetadataContents states it |
| AlbumProvider.AlbumMetadata | Jellyfin.Plugin.Discogs/Providers/AlbumProvider.cs:192-321 | what GetMetadata returns and requests; NoIdsNoRequests, MetadataIsReleaseOrNothing, the step lemmas and ArtistListingMatch (metadata of the listing's matched release) state it |
| AlbumProvider.AlbumImages | Jellyfin.Plugin.Discogs/Providers/AlbumProvider.cs:347-409 | what GetImages returns and requests; ImagesOfAlbum states it |
| ArtistProvider.ArtistSearchQuery | Jellyfin.Plugin.Discogs/Providers/ArtistProvider.cs:100-104 | the artist query of a search by name; SearchWithoutArtistId uses it |
| ArtistProvider.CandidateOfResult | Jellyfin.Plugin.Discogs/Providers/ArtistProvider.cs:117-123 | the candidate of one search result; CandidatesOfResults states it |
| ArtistProvider.SearchById | Jellyfin.Plugin.Discogs/Providers/ArtistProvider.cs:69-95 | the search by artist ID; SearchWithArtistId states it |
| ArtistProvider.SearchByQuery | Jellyfin.Plugin.Discogs/Providers/ArtistProvider.cs:96-132 | the search by name; SearchWithoutArtistId and SearchWithoutArtistIdNullResponse state it |
| ArtistProvider.ArtistSearch | Jellyfin.Plugin.Discogs/Providers/ArtistProvider.cs:52-135 | what GetSearchResults returns and requests; SearchWithArtistId, SearchWithoutArtistId and SearchWithoutArtistIdNullResponse state it |
| ArtistProvider.ArtistMetadataOf | Jellyfin.Plugin.Discogs/Providers/ArtistProvider.cs:208-228 | the metadata of a found artist; ArtistMetadataContents and ReplaceArtistNameOnlyChangesName state it |
| ArtistProvider.ResolveArtist | Jellyfin.Plugin.Discogs/Providers/ArtistProvider.cs:156-207 | the artist GetMetadata settles on: the first search hit without a stored ID (MetadataUsesFirstHit), the stored ID's artist otherwise (MetadataWithArtistId) |
| ArtistProvider.ArtistMetadata | Jellyfin.Plugin.Discogs/Providers/ArtistProvider.cs:138-231 | what GetMetadata returns and requests; ArtistMetadataContents, MetadataUsesFirstHit (the first hit's metadata), MetadataWithArtistId and MetadataReadsNoReleases state it |
| ArtistProvider.MainReleaseIds | Jellyfin.Plugin.Discogs/Providers/ArtistProvider.cs:260 | the IDs of the "Main" entries in listing order; MainReleaseIdsMembers states its membership |
| ArtistProvider.Distinct | Jellyfin.Plugin.Discogs/Providers/ArtistProvider.cs:260 | LINQ Distinct on the IDs; DistinctProperties states it |
| ArtistProvider.GenresOf | Jellyfin.Plugin.Discogs/Providers/ArtistProvider.cs:261-283 | the union of the fetched releases' genres; GenresOfMembers states it |
| ArtistProvider.ArtistGenres | Jellyfin.Plugin.Discogs/Providers/ArtistProvider.cs:248-286 | what GetArtistGenres collects and requests; ArtistGenresFetchesEachMainReleaseOnce and ArtistGenresAreMainReleaseGenres state it |
| ArtistProvider.ArtistImages | Jellyfin.Plugin.Discogs/Providers/ArtistProvider.cs:297-358 | what GetImages returns and requests; ImagesOfArtist states it |

## Left out

- Logging, logging scopes, `async`/`await` and cancellation tokens are left out: they do not affect results.
- The HTTP image download (`GetImageResponse`) is left out: it is I/O through the host's HTTP client factory.
- `Plugin.cs`, the `ExternalIds` classes, `PluginConfiguration` and `InvalidConfigurationException` are
  left out. They are host registration and configuration plumbing. The plugin instance is assumed present.
- `GetSupportedImages` and `Supports` are left out: they are constant host capability answers.
- The DiscogsClient library is modelled only through its observable answers, the `Catalog` oracle. Paging,
  rate limits and transport errors all collapse to "null".
- The `searchInfo == null` and client-null checks in `GetSearchResults` are left out. In the album provider
  the check comes after `searchInfo` has already been dereferenced. The model's inputs are never null.
- Null strings and null array elements inside fetched records are left out: strings and elements are always
  present. Null arrays (results, releases, genres, images) are modelled.
- `AlbumProvider.ReleaseCandidate` assumes every fetched release has an `artists` array. The source reads
  `release.artists.Length` (AlbumProvider.cs:88 and :157), which throws NullReferenceException on a release
  without one. That null array, and the exception it would raise in the search, are not modelled.
- `Text.ParseInt32` covers digit strings only. Leading and trailing white space and a sign, which `int.Parse`
  would accept, raise FormatException in the model. The plugin itself only stores unsigned digit strings.
  Numbers above Int32.MaxValue raise OverflowException, as `int.Parse` does.
- `Text.ToUpperInvariant` folds ASCII letters only. Non-ASCII case mapping is not modelled.
- The host's provider-ID dictionaries compare keys case-insensitively. The model uses exact keys, and all
  the keys the plugin uses are fixed constants.
- `MediaBrowser.GetProviderId`, `MediaBrowser.SetProviderId` and `MediaBrowser.AddGenre` are the host's
  behaviour. They are stated here as assumed, not derived from the plugin's code.
- `AlbumProvider.AlbumProvider.constructor`: an empty auth token makes the source throw
  InvalidConfigurationException. The model makes a non-empty token a precondition instead.
- `ArtistProvider.ArtistProvider.constructor`: the same InvalidConfigurationException is a precondition here too.
- `ArtistProvider.ArtistProvider.GetMetadata`: the `ReplaceArtistName` setting is a parameter, not read from
  the plugin configuration.
- `ArtistProvider.ArtistProvider.GetArtistGenres` promises that the returned elements are a set with no
  duplicates, but not their order. The source returns a `HashSet`'s contents, whose order .NET leaves unspecified.
- `AlbumProvider.AlbumProvider.GetImages` returns no images for an empty image array. The source as written
  throws there (see Findings).
- `AlbumProvider.AlbumImages` gives no images for an empty image array, as above.
- `AlbumProvider.ImagesOfAlbum` states the corrected empty list for an empty image array, as above.
- `ArtistProvider.ArtistProvider.GetImages` returns no images for an empty image array. The source as written
  throws there (see Findings).
- `ArtistProvider.ArtistImages` gives no images for an empty image array, as above.
- `ArtistProvider.ImagesOfArtist` states the corrected empty list for an empty image array, as above.

## Findings

| source | as written | input that shows it | evidently intended | confidence | as-written member | corrected member |
|---|---|---|---|---|---|---|
| Jellyfin.Plugin.Discogs/Providers/AlbumProvider.cs:387 | `images[0]` is read whenever the release's image array is non-null | a release whose `images` is an empty array | no images, as for a null array | not executed | RemoteImages.ImageListAsWritten | RemoteImages.ImageList |
| Jellyfin.Plugin.Discogs/Providers/ArtistProvider.cs:336 | `images[0]` is read whenever the artist's image array is non-null | an artist whose `images` is an empty array | no images, as for a null array | not executed | RemoteImages.ImageListAsWritten | RemoteImages.ImageList |

`RemoteImages.EmptyImageArrayThrows` exhibits the exception on the empty array. `RemoteImages.ImageListShape`
and `RemoteImages.ImageListAgreesWhenNonEmpty` prove that the corrected list is the intended one. The image
providers use the corrected list.

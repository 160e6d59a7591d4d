# Playlist client response shaping, in Dafny

This project models `RestfulPlaylist`, the client class of a test suite for a
music-catalog REST API. Each operation sends one HTTP request, except
`deleteAllPlaylists_forSingleUser`, which sends the listing GET and then one
DELETE per listed playlist. For some operations the class then shapes the
parsed JSON answer. The model covers:

- the request each operation sends: its verb and its path. Paths are built
  from the endpoint registry's `USERS`, `PLAYLISTS` and `TRACKS` constants,
  which are opaque strings here (`Requests.Endpoints`);
- `getAllPlaylists_forSingleUser`: each element of `items` becomes a
  `Playlist`. `id` must be a JSON string. `name`, `description` and `uri` may
  be any JSON value and are converted to text;
- `getPlaylistsTracks`: the `track` values of `items`, in order, with items
  whose `track` is JSON null skipped;
- `getAllPlaylists_featured`: the descent into `playlists.items`;
- `updatePlaylistDetails`: on status 200, the fixed envelope
  `{"error": {"status": 200, "message": "success"}}`;
- `deletePlaylist_byId` and `deleteAllPlaylists_forSingleUser`: the trace of
  requests they issue. A "delete" is an unfollow: a DELETE on
  `PLAYLISTS/<id>/followers`.

The transport is not modelled. Its answer, a parsed JSON tree, is a parameter.
Every exception the Java would throw becomes an explicit `Err`: a missing key,
a wrong JSON type, or a failed `(JSONObject)` cast (`Json.Error`).

Files:

- `json.dfy` (module `Json`): the JSON tree, `Result`, the org.json accessors
  the class calls, and `toString` of a JSON value (`Stringify`).
- `seqs.dfy` (module `Seqs`): order-preserving filter, map and count. The
  tracks result is stated against these.
- `requests.dfy` (module `Requests`): verbs, requests, the endpoint constants,
  and path joining with a read-back (`Between`).
- `models.dfy` (module `Models`): the `Playlist` record.
- `restful_playlist.dfy` (module `RestfulPlaylist`): the operations and their
  properties.

A missing `items` key is an error: `getJSONArray("items")` throws when the
key is absent (`RestfulPlaylist.java`, lines 65 and 112). Only an empty
`items` array yields an empty list.

## Model

| member | source | states |
|---|---|---|
| RestfulPlaylist.UserPlaylistsRequest | src/test/java/utils/restResources/RestfulPlaylist.java:61 | a GET whose path is `USERS`, then the user id, then `/` and `PLAYLISTS`; the user id reads back out of the path |
| RestfulPlaylist.PlaylistByIdRequest | src/test/java/utils/restResources/RestfulPlaylist.java:97 | a GET on `PLAYLISTS/` followed by the playlist id, which reads back out of the path |
| RestfulPlaylist.TracksRequest | src/test/java/utils/restResources/RestfulPlaylist.java:107 | a GET on `PLAYLISTS/<id>/TRACKS`; the playlist id reads back out of the path |
| RestfulPlaylist.DeleteRequest | src/test/java/utils/restResources/RestfulPlaylist.java:144-146 | deleting a playlist is a DELETE on `PLAYLISTS/<id>/followers` (an unfollow); the id reads back out of the path |
| RestfulPlaylist.CreatePlaylistRequest | src/test/java/utils/restResources/RestfulPlaylist.java:170 | a POST on the user's playlist collection `USERS<userId>/PLAYLISTS`; the user id reads back out of the path |
| RestfulPlaylist.AddItemsRequest | src/test/java/utils/restResources/RestfulPlaylist.java:180 | a POST on `PLAYLISTS/<id>/TRACKS`; the playlist id reads back out of the path |
| RestfulPlaylist.UpdateRequest | src/test/java/utils/restResources/RestfulPlaylist.java:202 | a PUT on `PLAYLISTS/` followed by the playlist id, which reads back out of the path |
| RestfulPlaylist.FeaturedRequest | src/test/java/utils/restResources/RestfulPlaylist.java:48 | a GET on the literal path `browse/featured-playlists`, not built from the registry constants |
| Requests.BetweenIsJoin | src/test/java/utils/restResources/RestfulPlaylist.java:61 | a path from which `Between` reads an id back is exactly prefix, id and suffix concatenated, so each request row above fixes its whole path |
| RestfulPlaylist.FeaturedPlaylistItems | src/test/java/utils/restResources/RestfulPlaylist.java:48-49 | succeeds exactly when the body is an object whose `playlists` is an object holding an `items` array, and returns that array; a non-object body, a missing `playlists` and a non-object `playlists` each fail with their own error |
| Json.TopLevelArray | src/test/java/utils/restResources/RestfulPlaylist.java:64-65 | parsing the body and taking `items` succeeds exactly when the body is an object with an array under the key; a non-object body and a missing key are distinct errors |
| Json.ParseObject | src/test/java/utils/restResources/RestfulPlaylist.java:64 | `new JSONObject(..)` on the response succeeds exactly when the body is a JSON object, returning its members; any other body fails with the not-an-object error |
| Json.GetArray | src/test/java/utils/restResources/RestfulPlaylist.java:65 | `getJSONArray` succeeds exactly on a present JSON array and returns its elements; an absent key and a non-array value are distinct errors |
| Json.GetObject | src/test/java/utils/restResources/RestfulPlaylist.java:49 | `getJSONObject` succeeds exactly on a present JSON object and returns its members; an absent key and a non-object value are distinct errors |
| Json.CastObject | src/test/java/utils/restResources/RestfulPlaylist.java:76 | casting an element succeeds exactly when it is a JSON object and fails with a cast error otherwise |
| Json.GetString | src/test/java/utils/restResources/RestfulPlaylist.java:79 | `getString` succeeds exactly on a present JSON string; an absent key and a non-string value are distinct errors |
| Json.GetValue | src/test/java/utils/restResources/RestfulPlaylist.java:80-82 | `get` succeeds on any present value, JSON null included, and fails only on an absent key |
| Json.Stringify | src/test/java/utils/restResources/RestfulPlaylist.java:80-82 | `toString` of a fetched value: a string is taken verbatim, null becomes "null", a boolean becomes "true" or "false", and a number becomes its canonical decimal text, which reads back as the same number |
| Json.IntToString | src/test/java/utils/restResources/RestfulPlaylist.java:80-82 | the decimal text of an integer: a leading minus sign exactly when it is negative, then only digits with no leading zero, and never "-0" |
| Json.IntToStringRoundTrip | src/test/java/utils/restResources/RestfulPlaylist.java:80-82 | reading back the decimal text of any integer, negative ones included, gives the integer |
| RestfulPlaylist.PlaylistOf | src/test/java/utils/restResources/RestfulPlaylist.java:76-84 | one element converts exactly when it is an object with a string `id` and present `name`, `description` and `uri`; the playlist carries that id and the text of the other three; a non-object, a missing `id` and a non-string `id` each give their own error |
| RestfulPlaylist.PlaylistOfAllStrings | src/test/java/utils/restResources/RestfulPlaylist.java:76-84 | an element whose four fields are strings becomes a playlist of exactly those strings |
| RestfulPlaylist.MapPlaylists | src/test/java/utils/restResources/RestfulPlaylist.java:74-85 | the loop succeeds exactly when every element converts; then the list has one playlist per element, in element order, each carrying its element's fields |
| RestfulPlaylist.PlaylistsFirstError | src/test/java/utils/restResources/RestfulPlaylist.java:74-85 | when element i is the first that does not convert, the whole listing fails with exactly element i's error |
| RestfulPlaylist.UserPlaylists | src/test/java/utils/restResources/RestfulPlaylist.java:64-87 | an empty `items` array gives an empty list; a missing or non-array `items` gives its access error; otherwise it succeeds exactly when every element converts, and returns one playlist per element, in order, carrying that element's fields |
| RestfulPlaylist.UserPlaylistsExample | src/test/java/utils/restResources/RestfulPlaylist.java:64-87 | the one-item listing `{"items":[{"id":"1","name":"A","description":"d","uri":"u"}]}` gives exactly `Playlist("1","A","d","u")` |
| RestfulPlaylist.TrackStep | src/test/java/utils/restResources/RestfulPlaylist.java:118-121 | one element is handled exactly when it is an object whose `track` is present and is null or an object; it is skipped exactly when `track` is null, and otherwise yields its `track` object; a non-object element, a missing `track` and a non-object `track` each give their own error |
| RestfulPlaylist.TracksOf | src/test/java/utils/restResources/RestfulPlaylist.java:117-122 | the loop succeeds exactly when every element can be handled; every collected track is a JSON object |
| RestfulPlaylist.TracksFirstError | src/test/java/utils/restResources/RestfulPlaylist.java:117-122 | when element i is the first that cannot be handled, the whole listing fails with exactly element i's error |
| RestfulPlaylist.TracksAreKeptTracks | src/test/java/utils/restResources/RestfulPlaylist.java:117-122 | on success the result equals the `track` values of the items whose track is not null, in item order, as given by a separate filter-then-map definition |
| RestfulPlaylist.TracksLength | src/test/java/utils/restResources/RestfulPlaylist.java:117-122 | on success the result has as many tracks as there are items, minus the number of items whose track is null |
| RestfulPlaylist.NullTrackShortens | src/test/java/utils/restResources/RestfulPlaylist.java:119 | a listing with any null-track placeholder yields strictly fewer tracks than items |
| RestfulPlaylist.PlaylistTracks | src/test/java/utils/restResources/RestfulPlaylist.java:111-124 | an empty `items` array gives an empty list; a missing or non-array `items` gives its access error; otherwise success exactly when every item can be handled, with the non-null tracks in order and the length reduced by the null count |
| RestfulPlaylist.Envelope | src/test/java/utils/restResources/RestfulPlaylist.java:193-199 | the `{error:{status,message}}` tree of any status and message decodes back to that status and message |
| RestfulPlaylist.SuccessEnvelope | src/test/java/utils/restResources/RestfulPlaylist.java:209-216 | the success marker is exactly `{"error":{"status":200,"message":"success"}}` and decodes to status 200 with message "success" |
| RestfulPlaylist.UpdatePlaylistDetails | src/test/java/utils/restResources/RestfulPlaylist.java:204-217 | on status 200 the result is the success envelope, whatever the response held; on any other status it is the object built from the response, unchanged |
| RestfulPlaylist.DeleteEach | src/test/java/utils/restResources/RestfulPlaylist.java:151-153 | one DELETE per playlist, in list order, on `PLAYLISTS/<id>/followers` with that playlist's id, and nothing else |
| RestfulPlaylist.DeleteAllPlaylistsForUser | src/test/java/utils/restResources/RestfulPlaylist.java:148-154 | the listing GET comes first; if the listing does not convert, nothing else is sent and its error is returned; otherwise exactly one unfollow per listed playlist follows, in listing order, with no other requests |

## Left out

- Json.Stringify: only strings, null, booleans and integers have their text fixed by the contract. Arrays and objects nested in `name`, `description` or `uri` are rendered as compact JSON text in association-list order, escaping only `"` and `\`. org.json orders object keys by its hash map and escapes more characters. Numbers are integers only; JSON fractions and exponents are not modelled.
- RestfulPlaylist.FeaturedPlaylistItems: converting the featured array's elements to playlists happens in `utils/JSON.java`, which is not part of this model. Only the descent into `playlists.items` is modelled.
- RestfulPlaylist.UpdatePlaylistDetails: on a status other than 200 the Java builds a `JSONObject` from the `Response` object's bean getters, not from the body text. That object is an uninterpreted parameter, returned unchanged. The model does not claim it echoes the error body.
- RestfulPlaylist.DeleteAllPlaylistsForUser: assumes every DELETE returns. Whether a failed delete throws and stops the loop depends on `RestResource.delete`, which is not part of this model.
- `getPlaylist_byId` and `createPlaylist` decode the answer with RestAssured's `.as(Playlist.class)`, a foreign library. Only their requests are modelled.
- `addItemsToPlaylist`: only its request is modelled. The list of item URIs it sends and the answer are not.
- Request bodies (the playlist sent by create and update, the URIs sent by add-items) are not part of the request trace.
- The transport: HTTP, authentication and the `RestResource` class are not part of this model. Each response body is a parameter, already parsed into a JSON tree.
- Parsing JSON text is not modelled, so malformed text is not an error case here. org.json's rejection of duplicate keys is not modelled either: a lookup returns the first binding.
- `Props.java` loads credentials from a properties file into a global singleton. It is file I/O with nothing to prove.

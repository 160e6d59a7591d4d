/**
 The playlist client. Each operation sends one request (its verb and path
 are built here from the registry's constants) and, where the client looks
 at the answer, shapes the parsed response body into a result: a list of
 playlists, a list of opaque track objects, the featured-playlist array or
 the status envelope of an update. The transport's answer is a parameter.
 */
module RestfulPlaylist {
  import opened Json
  import opened Requests
  import opened Models
  import Seqs

  /* ---------------- Requests and their paths ---------------- */

  /** GET of the browse page's featured playlists: a literal path, not
      built from the registry's constants. */
  function FeaturedRequest(): (r: Request)
    ensures r.verb == Get
    ensures r.path == "browse/featured-playlists"
  {
    Request(Get, "browse/featured-playlists")
  }

  /** GET of one user's playlists: the users prefix, the user id, a slash
      and the playlists constant. */
  function UserPlaylistsRequest(e: Endpoints, userId: string): (r: Request)
    ensures r.verb == Get
    ensures Between(r.path, e.users, "/" + e.playlists) == Some(userId)
  {
    Request(Get, Join(e.users, userId, "/" + e.playlists))
  }

  /** GET of one playlist: the playlists constant, a slash and the id. */
  function PlaylistByIdRequest(e: Endpoints, playlistId: string): (r: Request)
    ensures r.verb == Get
    ensures Between(r.path, e.playlists + "/", "") == Some(playlistId)
  {
    Request(Get, Join(e.playlists + "/", playlistId, ""))
  }

  /** GET of a playlist's items: the playlist's path, a slash and the
      tracks constant. */
  function TracksRequest(e: Endpoints, playlistId: string): (r: Request)
    ensures r.verb == Get
    ensures Between(r.path, e.playlists + "/", "/" + e.tracks) == Some(playlistId)
  {
    Request(Get, Join(e.playlists + "/", playlistId, "/" + e.tracks))
  }

  /** DELETE of the playlist's followers sub-path: there is no delete
      endpoint, so deleting a playlist unfollows it. */
  function DeleteRequest(e: Endpoints, playlistId: string): (r: Request)
    ensures r.verb == Delete
    ensures Between(r.path, e.playlists + "/", "/followers") == Some(playlistId)
  {
    Request(Delete, Join(e.playlists + "/", playlistId, "/followers"))
  }

  /** POST to the user's playlist collection: create a playlist. */
  function CreatePlaylistRequest(e: Endpoints, userId: string): (r: Request)
    ensures r.verb == Post
    ensures Between(r.path, e.users, "/" + e.playlists) == Some(userId)
  {
    Request(Post, Join(e.users, userId, "/" + e.playlists))
  }

  /** POST to the playlist's tracks sub-path: add items to it. */
  function AddItemsRequest(e: Endpoints, playlistId: string): (r: Request)
    ensures r.verb == Post
    ensures Between(r.path, e.playlists + "/", "/" + e.tracks) == Some(playlistId)
  {
    Request(Post, Join(e.playlists + "/", playlistId, "/" + e.tracks))
  }

  /** PUT to the playlist's path: update its details. */
  function UpdateRequest(e: Endpoints, playlistId: string): (r: Request)
    ensures r.verb == Put
    ensures Between(r.path, e.playlists + "/", "") == Some(playlistId)
  {
    Request(Put, Join(e.playlists + "/", playlistId, ""))
  }

  /* ---------------- Featured playlists ---------------- */

  /** The array the featured listing nests under `playlists.items`; the
      conversion of its elements to playlists is not part of this model. */
  function FeaturedPlaylistItems(body: Json): (r: Result<seq<Json>>)
    ensures r.Ok? <==>
      && Member(body, "playlists").Some?
      && Member(Member(body, "playlists").value, "items").Some?
      && Member(Member(body, "playlists").value, "items").value.Arr?
    ensures r.Ok? ==> Member(Member(body, "playlists").value, "items") == Some(Arr(r.value))
    ensures !body.Obj? ==> r == Err(BodyNotObject)
    ensures body.Obj? && Member(body, "playlists").None? ==> r == Err(KeyNotFound("playlists"))
    ensures Member(body, "playlists").Some? && !Member(body, "playlists").value.Obj?
            ==> r == Err(NotAnObject("playlists"))
  {
    var top :- ParseObject(body);
    var playlists :- GetObject(top, "playlists");
    GetArray(playlists, "items")
  }

  /* ---------------- One user's playlists ---------------- */

  /** What one element of `items` needs for a playlist to be built from it:
      an object with a string `id` and some value, of any type, under
      `name`, `description` and `uri`. */
  predicate IsPlaylistItem(item: Json)
  {
    && item.Obj?
    && Lookup(item.fields, "id").Some? && Lookup(item.fields, "id").value.Str?
    && Lookup(item.fields, "name").Some?
    && Lookup(item.fields, "description").Some?
    && Lookup(item.fields, "uri").Some?
  }

  /** `s` is the text of the value `fields` binds to `key`. */
  predicate StringifiedAs(fields: seq<(string, Json)>, key: string, s: string)
  {
    Lookup(fields, key).Some? && Stringify(Lookup(fields, key).value) == s
  }

  /** `p` was built from `item`: the same string id, and the text of the
      item's name, description and uri. */
  predicate Carries(item: Json, p: Playlist)
  {
    && item.Obj?
    && Lookup(item.fields, "id") == Some(Str(p.id))
    && StringifiedAs(item.fields, "name", p.name)
    && StringifiedAs(item.fields, "description", p.description)
    && StringifiedAs(item.fields, "uri", p.uri)
  }

  /** One loop iteration: cast the element to an object, read `id` with
      `getString` and the other three fields with `get(..).toString()`. */
  function PlaylistOf(item: Json): (r: Result<Playlist>)
    ensures r.Ok? <==> IsPlaylistItem(item)
    ensures r.Ok? ==> Carries(item, r.value)
    ensures !item.Obj? ==> r == Err(CastFailed)
    ensures item.Obj? && Lookup(item.fields, "id").None? ==> r == Err(KeyNotFound("id"))
    ensures item.Obj? && Lookup(item.fields, "id").Some? && !Lookup(item.fields, "id").value.Str?
            ==> r == Err(NotAString("id"))
  {
    var fields :- CastObject(item);
    var id :- GetString(fields, "id");
    var name :- GetValue(fields, "name");
    var description :- GetValue(fields, "description");
    var uri :- GetValue(fields, "uri");
    Ok(Playlist(id, Stringify(name), Stringify(description), Stringify(uri)))
  }

  /** The loop over `items`: one playlist per element, in order; the first
      element that cannot be converted aborts the whole listing. */
  function MapPlaylists(items: seq<Json>): (r: Result<seq<Playlist>>)
    ensures r.Ok? <==> forall i :: 0 <= i < |items| ==> IsPlaylistItem(items[i])
    ensures r.Ok? ==> |r.value| == |items|
    ensures r.Ok? ==> forall i :: 0 <= i < |items| ==> Carries(items[i], r.value[i])
  {
    if |items| == 0 then Ok([])
    else
      var p :- PlaylistOf(items[0]);
      var rest :- MapPlaylists(items[1..]);
      assert forall i :: 1 <= i < |items| ==> items[i] == items[1..][i - 1];
      Ok([p] + rest)
  }

  /** The loop throws at the first element that does not convert: the
      listing fails with exactly that element's error. */
  lemma {:induction false} PlaylistsFirstError(items: seq<Json>, i: int)
    requires 0 <= i < |items| && !IsPlaylistItem(items[i])
    requires forall k :: 0 <= k < i ==> IsPlaylistItem(items[k])
    ensures MapPlaylists(items) == Err(PlaylistOf(items[i]).error)
  {
    if 0 < i {
      var tail := items[1..];
      assert tail[i - 1] == items[i];
      assert forall k :: 0 <= k < i - 1 ==> tail[k] == items[k + 1];
      PlaylistsFirstError(tail, i - 1);
    }
  }

  /** `getAllPlaylists_forSingleUser`, from the parsed body of its GET. An
      empty `items` array is an empty list; a missing one is an error. */
  function UserPlaylists(body: Json): (r: Result<seq<Playlist>>)
    ensures TopLevelArray(body, "items").Err? ==> r == Err(TopLevelArray(body, "items").error)
    ensures TopLevelArray(body, "items") == Ok([]) ==> r == Ok([])
    ensures TopLevelArray(body, "items").Ok? ==>
      var items := TopLevelArray(body, "items").value;
      && (r.Ok? <==> forall i :: 0 <= i < |items| ==> IsPlaylistItem(items[i]))
      && (r.Ok? ==> |r.value| == |items| && forall i :: 0 <= i < |items| ==> Carries(items[i], r.value[i]))
  {
    var items :- TopLevelArray(body, "items");
    if |items| == 0 then Ok([]) else MapPlaylists(items)
  }

  /** Where the four keys of such an item are found. */
  lemma AllStringsLookups(fields: seq<(string, Json)>, id: string, name: string, description: string, uri: string)
    requires fields == [("id", Str(id)), ("name", Str(name)), ("description", Str(description)), ("uri", Str(uri))]
    ensures Lookup(fields, "id") == Some(Str(id))
    ensures Lookup(fields, "name") == Some(Str(name))
    ensures Lookup(fields, "description") == Some(Str(description))
    ensures Lookup(fields, "uri") == Some(Str(uri))
  {
    assert Lookup(fields, "name") == Some(Str(name)) by {
      assert fields[0].0 != "name";
    }
    assert Lookup(fields, "description") == Some(Str(description)) by {
      assert fields[0].0 != "description" && fields[1].0 != "description";
      assert Lookup(fields, "description") == Lookup(fields[1..], "description");
      assert Lookup(fields[1..], "description") == Lookup(fields[2..], "description");
    }
    assert Lookup(fields, "uri") == Some(Str(uri)) by {
      assert fields[0].0 != "uri" && fields[1].0 != "uri" && fields[2].0 != "uri";
      assert Lookup(fields, "uri") == Lookup(fields[1..], "uri");
      assert Lookup(fields[1..], "uri") == Lookup(fields[2..], "uri");
      assert Lookup(fields[2..], "uri") == Lookup(fields[3..], "uri");
    }
  }

  /** An item whose four fields are strings converts to exactly them. */
  lemma PlaylistOfAllStrings(id: string, name: string, description: string, uri: string)
    ensures PlaylistOf(Obj([("id", Str(id)), ("name", Str(name)), ("description", Str(description)),
                            ("uri", Str(uri))]))
            == Ok(Playlist(id, name, description, uri))
  {
    var fields := [("id", Str(id)), ("name", Str(name)), ("description", Str(description)), ("uri", Str(uri))];
    AllStringsLookups(fields, id, name, description, uri);
    assert GetString(fields, "id") == Ok(id);
    assert GetValue(fields, "name") == Ok(Str(name));
    assert GetValue(fields, "description") == Ok(Str(description));
    assert GetValue(fields, "uri") == Ok(Str(uri));
  }

  /** A one-playlist listing whose fields are all strings. */
  lemma UserPlaylistsExample()
    ensures UserPlaylists(Obj([("items", Arr([Obj([("id", Str("1")), ("name", Str("A")),
                                                   ("description", Str("d")), ("uri", Str("u"))])]))]))
            == Ok([Playlist("1", "A", "d", "u")])
  {
    var item := Obj([("id", Str("1")), ("name", Str("A")), ("description", Str("d")), ("uri", Str("u"))]);
    var p := Playlist("1", "A", "d", "u");
    PlaylistOfAllStrings("1", "A", "d", "u");
    var items := [item];
    assert MapPlaylists(items) == Ok([p]) by {
      assert items[1..] == [];
      assert MapPlaylists(items[1..]) == Ok([]);
      assert [p] + [] == [p];
    }
    assert TopLevelArray(Obj([("items", Arr(items))]), "items") == Ok(items);
  }

  /* ---------------- A playlist's tracks ---------------- */

  /** The item's `track` is JSON null: a placeholder for a removed track. */
  predicate TrackIsNull(item: Json)
  {
    item.Obj? && Lookup(item.fields, "track") == Some(Null)
  }

  predicate KeepsTrack(item: Json)
  {
    !TrackIsNull(item)
  }

  /** The item's `track` value (null when there is none). */
  function TrackValue(item: Json): Json
  {
    if item.Obj? && Lookup(item.fields, "track").Some? then Lookup(item.fields, "track").value else Null
  }

  /** What one element of `items` needs for the loop to get past it: an
      object whose `track` is present and either null or an object. */
  predicate IsTrackItem(item: Json)
  {
    && item.Obj?
    && Lookup(item.fields, "track").Some?
    && (Lookup(item.fields, "track").value.Null? || Lookup(item.fields, "track").value.Obj?)
  }

  /** One loop iteration: cast the element, skip it when `track` is null,
      otherwise cast `track` and keep it. */
  function TrackStep(item: Json): (r: Result<Option<Json>>)
    ensures r.Ok? <==> IsTrackItem(item)
    ensures r == Ok(None) <==> TrackIsNull(item)
    ensures r.Ok? && r.value.Some? ==> r.value.value == TrackValue(item) && r.value.value.Obj?
    ensures !item.Obj? ==> r == Err(CastFailed)
    ensures item.Obj? && Lookup(item.fields, "track").None? ==> r == Err(KeyNotFound("track"))
    ensures item.Obj? && Lookup(item.fields, "track").Some? && !IsTrackItem(item) ==> r == Err(CastFailed)
  {
    var fields :- CastObject(item);
    var track :- GetValue(fields, "track");
    if track.Null? then Ok(None)
    else
      var trackFields :- CastObject(track);
      Ok(Some(Obj(trackFields)))
  }

  /** The loop over `items`, keeping the non-null tracks in order; the first
      element that cannot be handled aborts the whole listing. */
  function TracksOf(items: seq<Json>): (r: Result<seq<Json>>)
    ensures r.Ok? <==> forall i :: 0 <= i < |items| ==> IsTrackItem(items[i])
    ensures r.Ok? ==> forall k :: 0 <= k < |r.value| ==> r.value[k].Obj?
  {
    if |items| == 0 then Ok([])
    else
      var step :- TrackStep(items[0]);
      var rest :- TracksOf(items[1..]);
      assert forall i :: 1 <= i < |items| ==> items[i] == items[1..][i - 1];
      Ok((if step.Some? then [step.value] else []) + rest)
  }

  /** The loop throws at the first element it cannot handle: the listing
      fails with exactly that element's error. */
  lemma {:induction false} TracksFirstError(items: seq<Json>, i: int)
    requires 0 <= i < |items| && !IsTrackItem(items[i])
    requires forall k :: 0 <= k < i ==> IsTrackItem(items[k])
    ensures TracksOf(items) == Err(TrackStep(items[i]).error)
  {
    if 0 < i {
      var tail := items[1..];
      assert tail[i - 1] == items[i];
      assert forall k :: 0 <= k < i - 1 ==> tail[k] == items[k + 1];
      TracksFirstError(tail, i - 1);
    }
  }

  /** On success the tracks are exactly the `track` values of the items whose
      `track` is not null, in item order. */
  lemma {:induction false} TracksAreKeptTracks(items: seq<Json>)
    requires TracksOf(items).Ok?
    ensures TracksOf(items).value == Seqs.Map(TrackValue, Seqs.Filter(KeepsTrack, items))
  {
    if |items| > 0 {
      TracksAreKeptTracks(items[1..]);
      var tail := Seqs.Filter(KeepsTrack, items[1..]);
      if KeepsTrack(items[0]) {
        Seqs.MapCons(TrackValue, items[0], tail);
      } else {
        assert Seqs.Filter(KeepsTrack, items) == tail;
      }
    }
  }

  /** On success one track is dropped per item whose `track` is null. */
  lemma {:induction false} TracksLength(items: seq<Json>)
    requires TracksOf(items).Ok?
    ensures |TracksOf(items).value| == |items| - Seqs.Count(TrackIsNull, items)
  {
    TracksAreKeptTracks(items);
    Seqs.FilterLength(KeepsTrack, TrackIsNull, items);
  }

  /** A listing with a null-track placeholder yields strictly fewer tracks
      than it has items. */
  lemma NullTrackShortens(items: seq<Json>, i: int)
    requires TracksOf(items).Ok?
    requires 0 <= i < |items| && TrackIsNull(items[i])
    ensures |TracksOf(items).value| < |items|
  {
    TracksLength(items);
    Seqs.CountPositive(TrackIsNull, items, i);
  }

  /** `getPlaylistsTracks`, from the parsed body of its GET. An empty `items`
      array is an empty list; a missing one is an error. */
  function PlaylistTracks(body: Json): (r: Result<seq<Json>>)
    ensures TopLevelArray(body, "items").Err? ==> r == Err(TopLevelArray(body, "items").error)
    ensures TopLevelArray(body, "items") == Ok([]) ==> r == Ok([])
    ensures TopLevelArray(body, "items").Ok? ==>
      var items := TopLevelArray(body, "items").value;
      && (r.Ok? <==> forall i :: 0 <= i < |items| ==> IsTrackItem(items[i]))
      && (r.Ok? ==> r.value == Seqs.Map(TrackValue, Seqs.Filter(KeepsTrack, items)))
      && (r.Ok? ==> |r.value| == |items| - Seqs.Count(TrackIsNull, items))
  {
    var items :- TopLevelArray(body, "items");
    if |items| < 1 then Ok([])
    else
      var r := TracksOf(items);
      if r.Ok? then
        TracksAreKeptTracks(items);
        TracksLength(items);
        r
      else r
  }

  /* ---------------- Update ---------------- */

  /** The `{error: {status, message}}` envelope used for failures and, by
      the update, for success too. */
  datatype NormalizedError = NormalizedError(status: int, message: string)

  /** Reads an envelope back: `error` must be an object holding a number
      `status` and a string `message`. */
  function DecodeEnvelope(j: Json): (r: Result<NormalizedError>)
  {
    var top :- ParseObject(j);
    var error :- GetObject(top, "error");
    var status :- GetNumber(error, "status");
    var message :- GetString(error, "message");
    Ok(NormalizedError(status, message))
  }

  /** The JSON tree of an envelope; it decodes back to the same value. */
  function Envelope(n: NormalizedError): (j: Json)
    ensures DecodeEnvelope(j) == Ok(n)
  {
    var error := [("status", Num(n.status)), ("message", Str(n.message))];
    assert "status" != "message" by { assert "status"[0] != "message"[0]; }
    assert Lookup(error, "message") == Lookup(error[1..], "message");
    Obj([("error", Obj(error))])
  }

  /** The fixed tree the update returns on status 200. */
  function SuccessEnvelope(): (j: Json)
    ensures j == Obj([("error", Obj([("status", Num(200)), ("message", Str("success"))]))])
    ensures DecodeEnvelope(j) == Ok(NormalizedError(200, "success"))
  {
    Envelope(NormalizedError(200, "success"))
  }

  /** `updatePlaylistDetails`, given the status of the PUT. On 200 the
      result is the success envelope whatever the response held; otherwise
      it is `responseObject`, the object org.json builds from the Java
      response itself, which is left uninterpreted. */
  function UpdatePlaylistDetails(status: int, responseObject: Json): (r: Json)
    ensures status == 200 ==> r == SuccessEnvelope()
    ensures status == 200 ==> DecodeEnvelope(r) == Ok(NormalizedError(200, "success"))
    ensures status != 200 ==> r == responseObject
  {
    if status != 200 then responseObject else SuccessEnvelope()
  }

  /* ---------------- Bulk delete ---------------- */

  /** The loop of `deleteAllPlaylists_forSingleUser`: one unfollow per
      playlist, in list order, and nothing else. */
  method DeleteEach(e: Endpoints, playlists: seq<Playlist>) returns (deletes: seq<Request>)
    ensures |deletes| == |playlists|
    ensures forall k :: 0 <= k < |playlists| ==>
              deletes[k] == Request(Delete, e.playlists + "/" + playlists[k].id + "/followers")
  {
    deletes := [];
    var i := 0;
    while i < |playlists|
      invariant 0 <= i <= |playlists|
      invariant |deletes| == i
      invariant forall k :: 0 <= k < i ==>
                  deletes[k] == Request(Delete, e.playlists + "/" + playlists[k].id + "/followers")
    {
      deletes := deletes + [DeleteRequest(e, playlists[i].id)];
      i := i + 1;
    }
  }

  /** `deleteAllPlaylists_forSingleUser`: the requests it issues, given the
      parsed body of its listing GET. The listing is converted first; if that
      fails nothing is deleted. Otherwise one unfollow is issued per listed
      playlist, in listing order, and nothing after. */
  method DeleteAllPlaylistsForUser(e: Endpoints, userId: string, listing: Json)
    returns (trace: seq<Request>, outcome: Result<()>)
    ensures |trace| >= 1 && trace[0] == UserPlaylistsRequest(e, userId)
    ensures UserPlaylists(listing).Err? ==>
      trace == [UserPlaylistsRequest(e, userId)] && outcome == Err(UserPlaylists(listing).error)
    ensures UserPlaylists(listing).Ok? ==>
      var playlists := UserPlaylists(listing).value;
      && outcome.Ok?
      && |trace| == |playlists| + 1
      && forall k :: 0 <= k < |playlists| ==>
           trace[k + 1] == Request(Delete, e.playlists + "/" + playlists[k].id + "/followers")
  {
    var listed := UserPlaylists(listing);
    if listed.Err? {
      return [UserPlaylistsRequest(e, userId)], Err(listed.error);
    }
    var deletes := DeleteEach(e, listed.value);
    trace := [UserPlaylistsRequest(e, userId)] + deletes;
    assert forall k :: 0 <= k < |deletes| ==> trace[k + 1] == deletes[k];
    outcome := Ok(());
  }
}

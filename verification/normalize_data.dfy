/** The backend's search normaliser: it turns the raw search payload of
    one provider into the list of uniform search items the front end
    renders. Spotify answers with a nested `{tracks: {items: [...]}}`
    object, SoundCloud with a flat array of tracks. Every property access
    the original makes on a missing object throws a `TypeError`; here that
    is a `Failure`. */
module NormalizeData {
  import opened Wrappers
  import opened JsValues

  // ---------------------------------------------------------------------
  // Raw provider payloads. Leaves are opaque `Value`s copied verbatim;
  // objects and arrays that the normaliser dereferences are `Option`s,
  // `None` standing for an absent (`undefined` or `null`) one. For the
  // arrays the code calls `map` on, `None` also stands for a present value
  // that is not an array, which throws the same way.
  // ---------------------------------------------------------------------

  datatype ExternalUrls = ExternalUrls(spotify: Value)

  datatype SpotifyArtist = SpotifyArtist(
    id: Value,
    name: Value,
    externalUrls: Option<ExternalUrls>)

  datatype SpotifyImage = SpotifyImage(url: Value)

  datatype SpotifyAlbum = SpotifyAlbum(
    albumType: Value,
    images: Option<seq<SpotifyImage>>)

  datatype SpotifyTrack = SpotifyTrack(
    id: Value,
    name: Value,
    artists: Option<seq<SpotifyArtist>>,
    album: Option<SpotifyAlbum>,
    externalUrls: Option<ExternalUrls>,
    durationMs: Value)

  datatype SpotifyPage = SpotifyPage(items: Option<seq<SpotifyTrack>>)

  datatype SoundCloudUser = SoundCloudUser(
    id: Value,
    username: Value,
    permalinkUrl: Value,
    avatarUrl: Value)

  datatype SoundCloudTrack = SoundCloudTrack(
    id: Value,
    title: Value,
    user: Option<SoundCloudUser>,
    artworkUrl: Value,
    permalinkUrl: Value,
    duration: Value)

  /** The `searchData` argument itself: an object with a `tracks` property
      (`SearchResponse`), a flat array of SoundCloud tracks (`TrackArray`),
      or `null`/`undefined` (`Nullish`). */
  datatype Payload =
    | SearchResponse(tracks: Option<SpotifyPage>)
    | TrackArray(items: seq<SoundCloudTrack>)
    | Nullish

  // ---------------------------------------------------------------------
  // The produced shape (what the code builds, not the declared interface).
  // ---------------------------------------------------------------------

  datatype ArtistInfo = ArtistInfo(name: Value, profileUrl: Value, id: Value)

  datatype SearchItem = SearchItem(
    id: Value,
    title: Value,
    artistInfo: seq<ArtistInfo>,
    imageUrl: Value,
    trackUrl: Value,
    albumType: Value,
    duration: Value)

  /** The JavaScript `TypeError`s the normaliser can throw, with the access
      path that failed. */
  datatype TypeError =
    | CannotRead(path: string)
    | NotAnArray(path: string)

  const Spotify: string := "spotify"

  // ---------------------------------------------------------------------
  // Helpers
  // ---------------------------------------------------------------------

  /** Reading a property of `o`: throws when `o` is absent. */
  function Deref<T>(o: Option<T>, path: string): (r: Result<T, TypeError>)
    ensures r.Success? <==> o.Some?
    ensures r.Success? ==> r.value == o.value
  {
    match o
    case Some(v) => Success(v)
    case None => Failure(CannotRead(path))
  }

  /** `Array.prototype.map` with a callback that may throw: the callback
      runs on the elements in order and the first exception escapes. */
  function MapAll<T, U, E>(f: T -> Result<U, E>, xs: seq<T>): (r: Result<seq<U>, E>)
    ensures r.Success? <==> forall i :: 0 <= i < |xs| ==> f(xs[i]).Success?
    ensures r.Success? ==> |r.value| == |xs|
    ensures r.Success? ==> forall i :: 0 <= i < |xs| ==> r.value[i] == f(xs[i]).value
    ensures r.Failure? ==>
      exists i :: 0 <= i < |xs| && f(xs[i]) == Failure(r.error)
        && forall j :: 0 <= j < i ==> f(xs[j]).Success?
  {
    if |xs| == 0 then Success([])
    else
      var head :- f(xs[0]);
      var tail := MapAll(f, xs[1..]);
      if tail.Failure? then
        ghost var k :| 0 <= k < |xs[1..]| && f(xs[1..][k]) == Failure(tail.error)
          && forall j :: 0 <= j < k ==> f(xs[1..][j]).Success?;
        assert f(xs[k + 1]) == Failure(tail.error);
        Failure(tail.error)
      else
        Success([head] + tail.value)
  }

  // ---------------------------------------------------------------------
  // The mapping of one track, per provider
  // ---------------------------------------------------------------------

  /** One entry of a Spotify track's `artistInfo`. */
  function SpotifyArtistInfo(a: SpotifyArtist): (r: Result<ArtistInfo, TypeError>)
    ensures r.Success? <==> a.externalUrls.Some?
    ensures r.Success? ==> r.value == ArtistInfo(a.name, a.externalUrls.value.spotify, a.id)
  {
    var urls :- Deref(a.externalUrls, "artist.external_urls");
    Success(ArtistInfo(a.name, urls.spotify, a.id))
  }

  function NormalizeSpotifyTrack(t: SpotifyTrack): (r: Result<SearchItem, TypeError>)
    ensures r.Success? <==> SpotifyTrackReadable(t)
    ensures r.Success? ==> FromSpotifyTrack(t, r.value)
  {
    var artists :- Deref(t.artists, "track.artists");
    var artistInfo :- MapAll(SpotifyArtistInfo, artists);
    var album :- Deref(t.album, "track.album");
    var images :- Deref(album.images, "track.album.images");
    var first :- if |images| == 0 then Failure(CannotRead("track.album.images[0]"))
                 else Success(images[0]);
    var urls :- Deref(t.externalUrls, "track.external_urls");
    Success(SearchItem(t.id, t.name, artistInfo, first.url, urls.spotify,
                       album.albumType, t.durationMs))
  }

  function NormalizeSoundCloudTrack(t: SoundCloudTrack): (r: Result<SearchItem, TypeError>)
    ensures r.Success? <==> SoundCloudTrackReadable(t)
    ensures r.Success? ==> FromSoundCloudTrack(t, r.value)
  {
    var user :- Deref(t.user, "track.user");
    Success(SearchItem(t.id, t.title, [ArtistInfo(user.username, user.permalinkUrl, user.id)],
                       Or(t.artworkUrl, user.avatarUrl), t.permalinkUrl, Null, t.duration))
  }

  // ---------------------------------------------------------------------
  // The normaliser
  // ---------------------------------------------------------------------

  /** `normalizeSearchData(provider, searchData)`: exactly the provider
      string "spotify" selects the nested Spotify shape; every other
      string reads the payload as a flat SoundCloud array. */
  function NormalizeSearchData(provider: string, payload: Payload): (r: Result<seq<SearchItem>, TypeError>)
    ensures provider == Spotify ==> (r.Success? <==> SpotifyPayloadReadable(payload))
    ensures provider != Spotify ==> (r.Success? <==> SoundCloudPayloadReadable(payload))
    ensures r.Success? && provider == Spotify ==>
      SpotifyPayloadReadable(payload) && NormalizedSpotify(SpotifyTracksOf(payload), r.value)
    ensures r.Success? && provider != Spotify ==>
      payload.TrackArray? && NormalizedSoundCloud(payload.items, r.value)
  {
    if provider == Spotify then
      var page :- match payload
                  case SearchResponse(tracks) => Deref(tracks, "searchData.tracks")
                  case TrackArray(_) => Failure(CannotRead("searchData.tracks"))
                  case Nullish => Failure(CannotRead("searchData"));
      var tracks :- Deref(page.items, "searchData.tracks.items");
      MapAll(NormalizeSpotifyTrack, tracks)
    else
      match payload
      case TrackArray(items) => MapAll(NormalizeSoundCloudTrack, items)
      case SearchResponse(_) => Failure(NotAnArray("searchData"))
      case Nullish => Failure(CannotRead("searchData"))
  }

  // ---------------------------------------------------------------------
  // Reference definitions: when the normaliser succeeds and what each
  // produced field is read from.
  // ---------------------------------------------------------------------

  /** Every object the Spotify mapping dereferences is present, and the
      album has at least one image. */
  predicate SpotifyTrackReadable(t: SpotifyTrack) {
    && t.artists.Some?
    && (forall a :: a in t.artists.value ==> a.externalUrls.Some?)
    && t.album.Some?
    && t.album.value.images.Some?
    && |t.album.value.images.value| > 0
    && t.externalUrls.Some?
  }

  /** Field-by-field provenance of a Spotify item. */
  predicate FromSpotifyTrack(t: SpotifyTrack, item: SearchItem) {
    && SpotifyTrackReadable(t)
    && item.id == t.id
    && item.title == t.name
    && |item.artistInfo| == |t.artists.value|
    && (forall i :: 0 <= i < |t.artists.value| ==>
          var a := t.artists.value[i];
          item.artistInfo[i] == ArtistInfo(a.name, a.externalUrls.value.spotify, a.id))
    && item.imageUrl == t.album.value.images.value[0].url
    && item.trackUrl == t.externalUrls.value.spotify
    && item.albumType == t.album.value.albumType
    && item.duration == t.durationMs
  }

  predicate SoundCloudTrackReadable(t: SoundCloudTrack) {
    t.user.Some?
  }

  /** Field-by-field provenance of a SoundCloud item: the uploader is the
      only artist, the artwork falls back to the uploader's avatar, and
      there is no album type. */
  predicate FromSoundCloudTrack(t: SoundCloudTrack, item: SearchItem) {
    && SoundCloudTrackReadable(t)
    && var u := t.user.value;
    && item.id == t.id
    && item.title == t.title
    && item.artistInfo == [ArtistInfo(u.username, u.permalinkUrl, u.id)]
    && item.imageUrl == (if Truthy(t.artworkUrl) then t.artworkUrl else u.avatarUrl)
    && item.trackUrl == t.permalinkUrl
    && item.albumType == Null
    && item.duration == t.duration
  }

  predicate SpotifyPayloadReadable(p: Payload) {
    && p.SearchResponse?
    && p.tracks.Some?
    && p.tracks.value.items.Some?
    && forall t :: t in p.tracks.value.items.value ==> SpotifyTrackReadable(t)
  }

  function SpotifyTracksOf(p: Payload): seq<SpotifyTrack>
    requires p.SearchResponse? && p.tracks.Some? && p.tracks.value.items.Some?
  {
    p.tracks.value.items.value
  }

  predicate SoundCloudPayloadReadable(p: Payload) {
    && p.TrackArray?
    && forall t :: t in p.items ==> SoundCloudTrackReadable(t)
  }

  /** One item per raw track, in the same order, each read from its track. */
  predicate NormalizedSpotify(tracks: seq<SpotifyTrack>, items: seq<SearchItem>) {
    && |items| == |tracks|
    && forall i :: 0 <= i < |tracks| ==> FromSpotifyTrack(tracks[i], items[i])
  }

  predicate NormalizedSoundCloud(tracks: seq<SoundCloudTrack>, items: seq<SearchItem>) {
    && |items| == |tracks|
    && forall i :: 0 <= i < |tracks| ==> FromSoundCloudTrack(tracks[i], items[i])
  }

  // ---------------------------------------------------------------------
  // Properties
  // ---------------------------------------------------------------------

  /** Mapping a concatenation maps each part: the items of `xs + ys` are
      the items of `xs` followed by those of `ys`, and the whole fails
      exactly when a part does. */
  lemma MapAllAppend<T, U, E>(f: T -> Result<U, E>, xs: seq<T>, ys: seq<T>)
    ensures MapAll(f, xs + ys).Success? <==> MapAll(f, xs).Success? && MapAll(f, ys).Success?
    ensures MapAll(f, xs + ys).Success? ==>
      MapAll(f, xs + ys).value == MapAll(f, xs).value + MapAll(f, ys).value
    ensures MapAll(f, xs).Failure? ==> MapAll(f, xs + ys) == MapAll(f, xs)
  {
    var zs := xs + ys;
    assert forall i :: 0 <= i < |xs| ==> zs[i] == xs[i];
    assert forall i :: 0 <= i < |ys| ==> zs[|xs| + i] == ys[i];
    if MapAll(f, xs).Success? && MapAll(f, ys).Success? {
      var a, b, c := MapAll(f, zs).value, MapAll(f, xs).value, MapAll(f, ys).value;
      forall i | 0 <= i < |zs|
        ensures f(zs[i]).Success? && a[i] == (b + c)[i]
      {
        if i >= |xs| {
          assert zs[i] == ys[i - |xs|];
        }
      }
      assert a == b + c;
    }
    if MapAll(f, xs).Failure? {
      var e := MapAll(f, xs).error;
      var i :| 0 <= i < |xs| && f(xs[i]) == Failure(e) && forall j :: 0 <= j < i ==> f(xs[j]).Success?;
      var k :| 0 <= k < |zs| && f(zs[k]) == Failure(MapAll(f, zs).error)
        && forall j :: 0 <= j < k ==> f(zs[j]).Success?;
      assert k == i;
    }
  }

  /** Searching a provider returns its tracks' items in order: a payload
      split into two batches normalises to the two batches' items,
      concatenated. */
  lemma SoundCloudBatchesConcatenate(provider: string, a: seq<SoundCloudTrack>, b: seq<SoundCloudTrack>)
    requires provider != Spotify
    requires NormalizeSearchData(provider, TrackArray(a)).Success?
    requires NormalizeSearchData(provider, TrackArray(b)).Success?
    ensures NormalizeSearchData(provider, TrackArray(a + b)).Success?
    ensures NormalizeSearchData(provider, TrackArray(a + b)).value
         == NormalizeSearchData(provider, TrackArray(a)).value
          + NormalizeSearchData(provider, TrackArray(b)).value
  {
    MapAllAppend(NormalizeSoundCloudTrack, a, b);
  }

  /** Only the exact string "spotify" selects the Spotify shape: any two
      other provider strings, such as "Spotify", "" or "soundcloud",
      normalise every payload identically. */
  lemma OtherProvidersReadFlatArray(p: string, q: string, payload: Payload)
    requires p != Spotify && q != Spotify
    ensures NormalizeSearchData(p, payload) == NormalizeSearchData(q, payload)
  {
  }

  /** A `null` or `undefined` payload throws whichever provider is asked
      for. */
  lemma NullishPayloadThrows(provider: string)
    ensures NormalizeSearchData(provider, Nullish).Failure?
  {
  }

  /** A capitalised "Spotify" is not the Spotify provider: a genuine
      Spotify response is then read as a flat array and throws. */
  lemma CapitalisedSpotifyIsNotSpotify(page: SpotifyPage)
    ensures NormalizeSearchData("Spotify", SearchResponse(Some(page))).Failure?
    ensures NormalizeSearchData("", SearchResponse(Some(page))).Failure?
  {
  }

  /** A Spotify track whose album has no image makes the whole search
      throw, whatever the other tracks are. */
  lemma SpotifyEmptyImagesThrow(tracks: seq<SpotifyTrack>, i: nat)
    requires i < |tracks|
    requires tracks[i].album.Some? && tracks[i].album.value.images == Some([])
    ensures NormalizeSearchData(Spotify, SearchResponse(Some(SpotifyPage(Some(tracks))))).Failure?
  {
  }

  /** A Spotify search yielding one track with a cover image and a
      duration of 210000 ms normalises to one item carrying both. */
  lemma SpotifySingleTrackExample(albumType: Value)
    ensures
      var track := SpotifyTrack(Str("t1"), Str("Song"), Some([]),
        Some(SpotifyAlbum(albumType, Some([SpotifyImage(Str("http://x/img.png"))]))),
        Some(ExternalUrls(Str("https://open.spotify.com/track/t1"))), Num(210000.0));
      var r := NormalizeSearchData(Spotify, SearchResponse(Some(SpotifyPage(Some([track])))));
      && r.Success? && |r.value| == 1
      && r.value[0].imageUrl == Str("http://x/img.png")
      && r.value[0].duration == Num(210000.0)
      && r.value[0].albumType == albumType
  {
  }

  /** A SoundCloud track without artwork shows its uploader's avatar. */
  lemma SoundCloudMissingArtworkExample(t: SoundCloudTrack)
    requires t.user.Some? && t.artworkUrl in {Undefined, Null, Str("")}
    ensures NormalizeSearchData("soundcloud", TrackArray([t])).Success?
    ensures NormalizeSearchData("soundcloud", TrackArray([t])).value[0].imageUrl == t.user.value.avatarUrl
  {
  }
}

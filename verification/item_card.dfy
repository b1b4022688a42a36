/** The search-result card: it turns a normalised item and the provider
    it came from into the player's `Track`, and renders the item's artists
    as links separated by ", ". */
module ItemCard {
  import opened Wrappers
  import opened JsValues
  import opened NormalizeData

  /** The `item` prop as the card reads it. Scalar properties the object
      lacks read as `Undefined`. An `artistInfo` that is absent, `null` or
      not an array (so that calling `map` on it throws) is `None`; items
      from other pages, such as favourites, can lack it. */
  datatype CardItem = CardItem(
    id: Value,
    title: Value,
    artistInfo: Option<seq<ArtistInfo>>,
    imageUrl: Value,
    trackUrl: Value,
    uri: Value,
    duration: Value,
    isFavorited: Value)

  /** The player-facing track handed to the favourite and queue actions. */
  datatype Track = Track(
    id: Value,
    title: Value,
    artists: Option<seq<ArtistInfo>>,
    imageUrl: Value,
    provider: string,
    uri: Value,
    duration: Value,
    isFavorited: Value)

  /** A normalised search item seen through the card's property reads:
      the normaliser builds no `uri` and no `isFavorited`, so both read as
      `undefined`; its `albumType` is not read by the card. */
  function AsCardItem(s: SearchItem): CardItem
  {
    CardItem(s.id, s.title, Some(s.artistInfo), s.imageUrl, s.trackUrl, Undefined, s.duration, Undefined)
  }

  /** The `track` object built from the props. */
  function BuildTrack(item: CardItem, provider: string): (t: Track)
    ensures t.id == item.id && t.title == item.title && t.imageUrl == item.imageUrl
    ensures t.duration == item.duration && t.isFavorited == item.isFavorited
    ensures t.artists == item.artistInfo
    ensures t.provider == provider
    ensures Truthy(item.uri) ==> t.uri == item.uri
    ensures !Truthy(item.uri) ==> t.uri == item.trackUrl
  {
    Track(item.id, item.title, item.artistInfo, item.imageUrl, provider,
          Or(item.uri, item.trackUrl), item.duration, item.isFavorited)
  }

  // ---------------------------------------------------------------------
  // Artist links
  // ---------------------------------------------------------------------

  /** A rendered element of the artist line. */
  datatype Elem =
    | ArtistLink(name: Value, href: Value)
    | Comma(key: nat)

  /** A React child: an element, or an array of children that React
      renders one after another. */
  datatype Fragment =
    | Element(elem: Elem)
    | Nested(parts: seq<Fragment>)

  /** The elements a fragment renders, in document order. */
  function Flatten(f: Fragment): seq<Elem>
  {
    match f
    case Element(e) => [e]
    case Nested(parts) => FlattenAll(parts)
  }

  function FlattenAll(parts: seq<Fragment>): seq<Elem>
  {
    if |parts| == 0 then [] else Flatten(parts[0]) + FlattenAll(parts[1..])
  }

  /** The `TypeError`s rendering the artist line can throw: `map` on an
      absent `artistInfo`, and `reduce` on an empty array without an
      initial value. */
  datatype RenderError = ArtistInfoMissing | EmptyArrayWithNoInitialValue

  /** The accumulation loop of `Array.prototype.reduce`: from `acc`, fold
      `xs[i..]` in, passing each element's index to the callback. */
  function ReduceFrom<T>(f: (T, T, nat) -> T, acc: T, xs: seq<T>, i: nat): T
    requires i <= |xs|
    decreases |xs| - i
  {
    if i == |xs| then acc else ReduceFrom(f, f(acc, xs[i], i), xs, i + 1)
  }

  /** `xs.reduce(f)` with no initial value: the first element seeds the
      accumulator and the callback sees the rest from index 1; an empty
      array throws. */
  function Reduce<T>(f: (T, T, nat) -> T, xs: seq<T>): (r: Result<T, RenderError>)
    ensures r.Success? <==> |xs| > 0
    ensures |xs| == 1 ==> r == Success(xs[0])
  {
    if |xs| == 0 then Failure(EmptyArrayWithNoInitialValue)
    else Success(ReduceFrom(f, xs[0], xs, 1))
  }

  function LinkOf(a: ArtistInfo): Elem
  {
    ArtistLink(a.name, a.profileUrl)
  }

  /** The reduce callback: three children, namely the previous children, a
      span keyed `comma-<index>` holding ", ", then the current link. */
  function JoinWithComma(prev: Fragment, curr: Fragment, index: nat): Fragment
  {
    Nested([prev, Element(Comma(index)), curr])
  }

  function ArtistFragments(artists: seq<ArtistInfo>): (links: seq<Fragment>)
    ensures |links| == |artists|
    ensures forall i :: 0 <= i < |artists| ==> links[i] == Element(LinkOf(artists[i]))
  {
    seq(|artists|, i requires 0 <= i < |artists| => Element(LinkOf(artists[i])))
  }

  /** The artist line: one link per artist, joined by `reduce`. */
  function ArtistLine(artistInfo: Option<seq<ArtistInfo>>): (r: Result<Fragment, RenderError>)
    ensures r.Success? <==> artistInfo.Some? && |artistInfo.value| > 0
    ensures artistInfo.None? ==> r == Failure(ArtistInfoMissing)
    ensures artistInfo == Some([]) ==> r == Failure(EmptyArrayWithNoInitialValue)
    ensures artistInfo.Some? && |artistInfo.value| == 1 ==>
      r == Success(Element(LinkOf(artistInfo.value[0])))
  {
    var artists :- if artistInfo.Some? then Success(artistInfo.value) else Failure(ArtistInfoMissing);
    Reduce(JoinWithComma, ArtistFragments(artists))
  }

  /** Reference layout of the first `m` artists: links at even positions,
      in order, and between link `i - 1` and link `i` the separator keyed
      `i`. */
  predicate JoinedPrefix(artists: seq<ArtistInfo>, m: nat, out: seq<Elem>)
    requires 1 <= m <= |artists|
  {
    && |out| == 2 * m - 1
    && forall k :: 0 <= k < |out| ==>
         out[k] == (if k % 2 == 0 then LinkOf(artists[k / 2]) else Comma(k / 2 + 1))
  }

  lemma FlattenJoin(prev: Fragment, curr: Fragment, index: nat)
    ensures Flatten(JoinWithComma(prev, curr, index)) == Flatten(prev) + [Comma(index)] + Flatten(curr)
  {
    var parts := [prev, Element(Comma(index)), curr];
    assert parts[1..] == [Element(Comma(index)), curr];
    assert parts[1..][1..] == [curr];
    assert [curr][1..] == [];
    calc {
      FlattenAll(parts);
      Flatten(prev) + FlattenAll(parts[1..]);
      Flatten(prev) + ([Comma(index)] + FlattenAll([curr]));
      Flatten(prev) + ([Comma(index)] + (Flatten(curr) + FlattenAll([])));
    }
  }

  lemma {:induction false} ReduceFromJoins(artists: seq<ArtistInfo>, acc: Fragment, i: nat)
    requires 1 <= i <= |artists|
    requires JoinedPrefix(artists, i, Flatten(acc))
    ensures JoinedPrefix(artists, |artists|, Flatten(ReduceFrom(JoinWithComma, acc, ArtistFragments(artists), i)))
    decreases |artists| - i
  {
    var links := ArtistFragments(artists);
    if i < |artists| {
      var next := JoinWithComma(acc, links[i], i);
      FlattenJoin(acc, links[i], i);
      var out := Flatten(next);
      assert out == Flatten(acc) + [Comma(i)] + [LinkOf(artists[i])];
      forall k | 0 <= k < |out|
        ensures out[k] == (if k % 2 == 0 then LinkOf(artists[k / 2]) else Comma(k / 2 + 1))
      {
        if k < |Flatten(acc)| {
          assert out[k] == Flatten(acc)[k];
        }
      }
      assert JoinedPrefix(artists, i + 1, out);
      ReduceFromJoins(artists, next, i + 1);
    }
  }

  /** For at least one artist the line renders the names in order with a
      separator between each pair; with no artist the unseeded `reduce`
      throws. */
  lemma ArtistLineRendersJoinedNames(artists: seq<ArtistInfo>)
    ensures ArtistLine(Some(artists)).Failure? <==> |artists| == 0
    ensures |artists| > 0 ==> JoinedPrefix(artists, |artists|, Flatten(ArtistLine(Some(artists)).value))
  {
    if |artists| > 0 {
      var links := ArtistFragments(artists);
      assert Flatten(links[0]) == [LinkOf(artists[0])];
      assert JoinedPrefix(artists, 1, Flatten(links[0]));
      ReduceFromJoins(artists, links[0], 1);
    }
  }

  // ---------------------------------------------------------------------
  // Composition with the normaliser
  // ---------------------------------------------------------------------

  /** A card for any normalised search item plays the item's `trackUrl`,
      is not marked favourite, and lists exactly the item's artists. */
  lemma NormalizedItemTrack(s: SearchItem, provider: string)
    ensures BuildTrack(AsCardItem(s), provider).uri == s.trackUrl
    ensures !Truthy(BuildTrack(AsCardItem(s), provider).isFavorited)
    ensures BuildTrack(AsCardItem(s), provider).artists == Some(s.artistInfo)
  {
  }

  /** End to end: for every item of a successful search, the track built
      by its card plays the provider's own track page, namely
      `external_urls.spotify` for Spotify and `permalink_url` for
      SoundCloud. */
  lemma SearchResultTrackUri(searchProvider: string, payload: Payload, cardProvider: string, i: nat)
    requires NormalizeSearchData(searchProvider, payload).Success?
    requires i < |NormalizeSearchData(searchProvider, payload).value|
    ensures var t := BuildTrack(AsCardItem(NormalizeSearchData(searchProvider, payload).value[i]), cardProvider);
      && t.provider == cardProvider
      && (searchProvider == Spotify ==> t.uri == SpotifyTracksOf(payload)[i].externalUrls.value.spotify)
      && (searchProvider != Spotify ==> t.uri == payload.items[i].permalinkUrl)
  {
  }
}

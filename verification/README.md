# MusicApp search normaliser, search card and seek bar, in Dafny

This project models three pieces of the MusicApp music-aggregation player:

- **The provider search normaliser** (`normalizeSearchData`, backend). It turns a raw
  search payload into a list of uniform search items. Spotify sends a nested
  `{tracks: {items: [...]}}` object and SoundCloud sends a flat array of tracks.
  Exactly the provider string `"spotify"` selects the Spotify mapping. Every other
  string selects the SoundCloud mapping. A missing nested object makes the original
  throw a `TypeError`; here that is a `Failure`. An empty `album.images` list is one
  such case.
- **The search result card** (`ItemCard`, front end). It builds the player's `Track`
  from a normalised item and the provider prop. `uri` falls back to `trackUrl`. The
  card also renders the artist line with an unseeded `reduce` that puts `", "`
  separators between the artist links.
- **The progress bar's drag-to-seek controller** (`ProgressBar`, front end). Pressing
  the bar captures its bounding rectangle and previews the position under the
  pointer. Moving re-previews. Releasing issues one `seek`. While the user drags, the
  preview replaces the live playback position in the display and in the fill.

Modules:

- `Wrappers`: `Option` and `Result`.
- `JsValues`: opaque JavaScript leaf values, their truthiness, and `||`.
- `NormalizeData`: raw payload types, the produced `SearchItem`, and the normaliser.
- `ItemCard`: `Track` construction, JavaScript `reduce`, and the artist line.
- `ProgressBar`: the drag state, its handlers, the derived views, and event runs.

Modelling decisions:

- Leaf values the code copies without inspecting them (ids, names, urls, durations)
  are `JsValues.Value`s, copied verbatim.
- Objects and arrays that the code dereferences are `Option`s. `None` stands for an
  `undefined` or `null` one, and reading through it fails.
- The normaliser's output is modelled with the shape the code builds: `title`,
  `artistInfo`, `imageUrl`, `trackUrl`, `albumType` and `duration`. The declared
  `SearchItem` interface in `backend/src/services/normalizeData.ts:2-6` has a `name`
  field that the code never produces.
- The player's `seek` belongs to a context that is not part of this model. Here it is
  an emitted `Output`.
- The document-level `pointermove`/`pointerup` listeners are registered together with
  `isDragging := true` and removed together with `isDragging := false`. So
  `ProgressBar.Dispatch` delivers `Move` and `Up` only while `isDragging`.
- The move and up handlers registered at pointer-down close over that render's
  `duration`. A run of events (`ProgressBar.Run`) takes one duration for every event:
  the one captured at the press. The duration prop changing during a drag is not
  modelled (see "## Left out").
- `handlePointerUp` does not clear the captured rectangle. The model keeps it too.
- A missing leaf field does not throw. The code copies it as `undefined` into the
  item. Only a missing object that the code reads through throws. So a payload with
  missing leaves still normalises, to an item whose missing fields are `undefined`.
- A `searchData` of `undefined` or `null` is `NormalizeData.Nullish`. Reading
  `tracks` from it throws, and so does calling `map` on it.
- An array the code calls `map` on (`tracks.items`, `track.artists`, a card item's
  `artistInfo`) is `None` when it is absent, `null` or not an array. In all three
  cases `map` throws.
- The card reads `item.artistInfo` without checking it. A card item without it, such
  as a stored favourite, builds its `Track`, but its artist line throws.
- The track `provider` is whatever string prop the card receives. The code does not
  restrict it to the two providers.

## Model

| member | source | states |
|---|---|---|
| JsValues.Or | backend/src/services/normalizeData.ts:46 | JavaScript logical-or yields the left operand when it is truthy and the right one otherwise; the result is truthy iff either operand is |
| NormalizeData.MapAll | backend/src/services/normalizeData.ts:21 | `map` with a throwing callback succeeds iff the callback succeeds on every element; it then yields one result per element in order; otherwise it throws the error of the first failing element |
| NormalizeData.SpotifyArtistInfo | backend/src/services/normalizeData.ts:24-30 | an artist maps iff its external_urls is present; the entry then has the artist's name, the external_urls.spotify link as profileUrl, and the artist's id |
| NormalizeData.NormalizeSpotifyTrack | backend/src/services/normalizeData.ts:21-35 | a Spotify track maps iff artists, every artist's external_urls, album, a non-empty album.images and external_urls are present; the item's fields are then read from exactly the documented raw fields |
| NormalizeData.NormalizeSoundCloudTrack | backend/src/services/normalizeData.ts:38-50 | a SoundCloud track maps iff it has a user; the only artist is that user, the image is the artwork if truthy else the avatar, albumType is null, trackUrl is the permalink |
| NormalizeData.NormalizeSearchData | backend/src/services/normalizeData.ts:17-52 | "spotify" succeeds iff the payload has tracks.items with every track readable, and then yields one item per track in order; any other provider succeeds iff the payload is an array of readable tracks, with the same per-track correspondence |
| NormalizeData.MapAllAppend | backend/src/services/normalizeData.ts:21 | mapping a concatenation succeeds iff both parts do; its items are the first part's items followed by the second's; a failing first part is the whole result |
| NormalizeData.SoundCloudBatchesConcatenate | backend/src/services/normalizeData.ts:37-38 | normalising two SoundCloud batches joined is normalising each and joining the results |
| NormalizeData.OtherProvidersReadFlatArray | backend/src/services/normalizeData.ts:18-37 | any two provider strings other than exactly "spotify" normalise every payload identically |
| NormalizeData.NullishPayloadThrows | backend/src/services/normalizeData.ts:17-38 | an undefined or null payload throws for every provider string |
| NormalizeData.CapitalisedSpotifyIsNotSpotify | backend/src/services/normalizeData.ts:18-38 | "Spotify" and "" take the flat-array branch, so a genuine Spotify response then throws |
| NormalizeData.SpotifyEmptyImagesThrow | backend/src/services/normalizeData.ts:31 | one Spotify track whose album has an empty images list makes the whole search throw |
| NormalizeData.SpotifySingleTrackExample | backend/src/services/normalizeData.ts:31-34 | a one-track Spotify response yields one item whose imageUrl is images[0].url, whose duration is duration_ms and whose albumType is album_type |
| NormalizeData.SoundCloudMissingArtworkExample | backend/src/services/normalizeData.ts:46 | a SoundCloud track whose artwork_url is undefined, null or "" shows its user's avatar_url |
| ItemCard.BuildTrack | frontend/src/components/search/ItemCard.tsx:15-24 | id, title, imageUrl, duration and isFavorited are copied; artists is the item's artistInfo; provider is the prop; uri is the item's uri when truthy, else its trackUrl |
| ItemCard.ArtistFragments | frontend/src/components/search/ItemCard.tsx:36-37 | one link per artist, in order, pointing at the artist's profileUrl |
| ItemCard.Reduce | frontend/src/components/search/ItemCard.tsx:38 | an unseeded `reduce` throws iff the array is empty; on one element it returns that element |
| ItemCard.ReduceFromJoins | frontend/src/components/search/ItemCard.tsx:38 | each callback step extends a correctly joined prefix of k links to one of k+1 links |
| ItemCard.ArtistLine | frontend/src/components/search/ItemCard.tsx:36-38 | the artist line renders iff artistInfo is an array with at least one artist; a missing artistInfo throws at `map`, an empty one throws at `reduce`; one artist renders as that artist's link alone |
| ItemCard.ArtistLineRendersJoinedNames | frontend/src/components/search/ItemCard.tsx:36-38 | for n >= 1 artists the line renders 2n-1 elements: the n links in order, with the separator keyed i between links i-1 and i; for n = 0 it throws |
| ItemCard.NormalizedItemTrack | frontend/src/components/search/ItemCard.tsx:15-24 | a card for a normalised item (which has no uri) plays its trackUrl, is not favourited and lists exactly its artistInfo |
| ItemCard.SearchResultTrackUri | frontend/src/components/search/ItemCard.tsx:20-21 | for every item of a successful search, the card's track plays the raw external_urls.spotify (Spotify) or permalink_url (SoundCloud), and its provider is the prop |
| ProgressBar.Clamp01 | frontend/src/components/playback/ProgressBar.tsx:40 | the clamp lies in [0, 1]; it is the identity on [0, 1], 0 below and 1 above |
| ProgressBar.PositionAt | frontend/src/components/playback/ProgressBar.tsx:40-41 | the position lies between 0 and the duration; it is linear in the pointer over the bar, 0 left of it and the full duration right of it |
| ProgressBar.UpdateDragPosition | frontend/src/components/playback/ProgressBar.tsx:37-43 | with no captured rectangle or a falsy duration nothing changes; otherwise only the preview changes, to the position under the pointer |
| ProgressBar.PointerDown | frontend/src/components/playback/ProgressBar.tsx:24-32 | with a falsy duration or no mounted bar nothing changes; otherwise the state is dragging, holds the measured rectangle and previews the pointer's position |
| ProgressBar.PointerMove | frontend/src/components/playback/ProgressBar.tsx:33-35 | a move never changes the dragging flag or the captured rectangle; with no rectangle or a falsy duration the preview is kept, otherwise it becomes the position under the pointer |
| ProgressBar.PointerUp | frontend/src/components/playback/ProgressBar.tsx:45-56 | one seek to the preview when there is one and none otherwise; then not dragging and no preview, with the rectangle kept |
| ProgressBar.DisplayedPosition | frontend/src/components/playback/ProgressBar.tsx:17 | while dragging the displayed position is the preview; otherwise it is the live playback position |
| ProgressBar.ProgressPercentage | frontend/src/components/playback/ProgressBar.tsx:18 | the fill is 0 for a falsy duration and never above 100 |
| ProgressBar.FillDuringDrag | frontend/src/components/playback/ProgressBar.tsx:18 | during a drag on a positive duration the fill is the preview's share of the track in percent, within [0, 100] |
| ProgressBar.FillWithoutPreview | frontend/src/components/playback/ProgressBar.tsx:18 | with no preview on a positive duration, the fill is the live position's share of the track in percent, within [0, 100] when the live position is within the track |
| ProgressBar.Dispatch | frontend/src/components/playback/ProgressBar.tsx:24-56 | a press runs the pointer-down handler and emits nothing; moves and releases are heard only while dragging (the listeners are added at lines 28-29 and removed at 54-55) and then run their handlers; at most one seek is emitted, only by a release during a drag with a preview |
| ProgressBar.DispatchKeepsConsistent | frontend/src/components/playback/ProgressBar.tsx:24-56 | every event keeps "preview exists iff dragging, and then the rectangle is captured and the preview lies within [0, the duration captured at the press]"; every emitted seek lies within [0, the duration captured at the press] |
| ProgressBar.RunKeepsConsistent | frontend/src/components/playback/ProgressBar.tsx:24-56 | the same holds, within [0, the duration captured at the press], for any sequence of events and all the seeks it emits |
| ProgressBar.MovesPreview | frontend/src/components/playback/ProgressBar.tsx:33-43 | moves during a drag emit no seek and leave the preview at the last pointer's position |
| ProgressBar.HoldPreviews | frontend/src/components/playback/ProgressBar.tsx:24-43 | a press with a truthy duration and any moves leave the controller dragging, with the rectangle captured and the preview at the last pointer's position, and emit no seek |
| ProgressBar.ReleaseIsPointerUp | frontend/src/components/playback/ProgressBar.tsx:45-56 | a release during a drag runs the pointer-up handler and nothing else |
| ProgressBar.DragGestureSeeksOnce | frontend/src/components/playback/ProgressBar.tsx:24-56 | press, any moves, release: exactly one seek, to the position under the last pointer x (the press's x when there is no move), ending idle with no preview |
| ProgressBar.PreviewIgnoresLivePosition | frontend/src/components/playback/ProgressBar.tsx:17-18 | while the pointer is held, the displayed position is the preview and neither it nor the fill depends on the live position |
| ProgressBar.ReleaseShowsLivePosition | frontend/src/components/playback/ProgressBar.tsx:17-18 | after the release, the displayed position is the live one and the fill is the one an untouched bar shows for the live position |
| ProgressBar.PressWithoutDurationIsIgnored | frontend/src/components/playback/ProgressBar.tsx:25 | from any state that is not dragging, a press with a falsy duration or on an unmounted bar, then moves and a release, change nothing and emit no seek |
| ProgressBar.IdleIgnoresDocumentEvents | frontend/src/components/playback/ProgressBar.tsx:28-29 | in any state that is not dragging (on mount or after a release), moves and releases are not listened to: no change and no seek |
| ProgressBar.HalfwayDragExample | frontend/src/components/playback/ProgressBar.tsx:40-48 | dragging from the start to the middle of a 200-second track and releasing issues exactly seek(100) |

## Left out

- Numbers are mathematical reals. IEEE doubles, `NaN` and the infinities are not modelled. In particular, the bar's rectangle is required to have a positive width (`ProgressBar.Rect`), so the division by zero a zero-width bar would cause is out of scope.
- A `null` element inside a provider's array is not modelled: array elements are objects. A payload that is both an array and carries a `tracks` property is not modelled either.
- A present `album.images` that is not an array is not modelled. Indexing a string, for example, does not throw. `None` stands only for an absent or `null` list.
- A present but non-object `tracks`, `album`, `user` or `external_urls` (a number, say) is not modelled. Reading a property of one yields `undefined` instead of throwing.
- `NormalizeData.NormalizeSearchData`: the errors are `TypeError`s with the failing access path. The exact message of the JavaScript engine is not modelled.
- ProgressBar.RunKeepsConsistent: a change of the `duration` prop during a drag is not modelled. The preview and the seek keep the duration captured at the press, while the fill (`frontend/src/components/playback/ProgressBar.tsx:18`) and a later press (line 25) read the new one. So after the duration shrinks mid-drag, the source can seek outside the new [0, duration] and show a fill capped at 100.
- The `async` wrapper of the normaliser awaits nothing and is not modelled.
- `formatDuration` is not part of this model. `ProgressBar.DisplayedPosition` returns the value the formatter is given.
- DOM specifics in the progress bar are not modelled: `getBoundingClientRect` (it becomes the `measured` parameter), listener bookkeeping beyond the `isDragging` gate, React refs and re-render timing, and the `useEffect` at `frontend/src/components/playback/ProgressBar.tsx:20-22`. That effect only reassigns a local and has no observable effect.
- The playback/queue state machine (`togglePlayPause`, next/previous, `seek` with its clamping) lives in a player context that is not part of this model. The controller's `seek` is an emitted output.
- The card's rendering beyond the artist line is not modelled: images, provider logo, external link, favourite and queue actions. The React `key` of each artist link is not modelled either.
- The favourites page, the playback controls layout, the sign-up page, the Tailwind configuration and the database connection check are UI, styling or I/O and are not modelled.

# Event-selection screen model

A Dafny model of the event-selection screen of the Cytoid game client
(`EventSelectionScreen`). The screen fetches posts from the services
endpoint, keeps the ones that are events (both a start and an end date),
caches that list for the session, pages through it with wrap-around
next/previous buttons, and loads each event's cover and logo asynchronously
under a load token so that a download belonging to an older selection is
never displayed.

- `wrappers.dfy` — `Option`, standing for the source's nullable values.
- `events.dfy` (module `Events`) — the `EventMeta` record, the date filter
  of the posts callback with a reference definition by positions, and the
  dispatch of the "enter" button.
- `carousel.dfy` (module `Carousel`) — the index clamp and the wrap-around
  arithmetic of paging (`Mod`, an extension that is not part of this model,
  is taken to be the Euclidean remainder).
- `screen.dfy` (module `EventSelection`) — the class `EventSelectionScreen`
  whose methods are the screen's lifecycle callbacks, the posts callback,
  the token-guarded image completions and the paging handlers, plus three
  client methods that run typical sequences of callbacks and state what
  they guarantee.

Modelling decisions:

- The statics `LoadedContent` and `lastSelectedIndex` are fields of the
  class (`loadedContent`, `lastSelectedIndex`). The model assumes the screen
  is created once per process, so the constructor starts the statics at
  their declared values (lines 14-15) together with the instance fields.
- `DateTimeOffset.Now` is the counter `clock`, which only grows; every
  `LoadEvent` takes the next value as its token. The reset value
  `DateTimeOffset.MinValue` is `MinToken` (0), which no load ever issues.
- Asynchronous completions are explicit calls: `CompleteFetch` (success
  with the posts, or failure), `CompleteCover` and `CompleteLogo` (with the
  token of the load that started them and an opaque `Sprite`).
  `pendingRequests` records that a posts callback can only follow a request.
- An empty filtered list is not excluded: as written, `OnContentLoaded`
  attaches the paging handlers (the count is not 1,
  EventSelectionScreen.cs:101-116), resets the index to 0 and then the
  `List<T>` indexer throws `ArgumentOutOfRangeException` at
  `Events[selectedIndex]` (line 119). A later next or previous calls
  `Mod(0)`; `Mod` is an extension that is not part of this model, and the
  model assumes it is built on the integer `%`, which throws
  `DivideByZeroException` for a zero divisor. The model returns
  `Threw(IndexOutOfRange)` / `Threw(DivideByZero)` with the state the code
  reached before the throw.
- A newer `LoadEvent` does not cancel an older download: the token checks at
  lines 140 and 161 only discard its result (the download still finishes and
  is cached by the asset loader).

## Model

| member | source | states |
|---|---|---|
| `Events.FilterEvents` | Assets/Scripts/Navigation/Screens/EventSelection/EventSelectionScreen.cs:80 | every stored event comes from the posts and has both dates; every post with both dates is stored; the list is no longer than the posts |
| `Events.DatedPositions` | Assets/Scripts/Navigation/Screens/EventSelection/EventSelectionScreen.cs:80 | reference definition: the positions of the posts with both dates, strictly increasing, and each such position is listed |
| `Events.FilterLengthFollowsPositions` | Assets/Scripts/Navigation/Screens/EventSelection/EventSelectionScreen.cs:80 | from any starting position, the filter keeps as many posts as there are dated positions |
| `Events.FilterAtPosition` | Assets/Scripts/Navigation/Screens/EventSelection/EventSelectionScreen.cs:80 | from any starting position, the k-th kept post is the post at the k-th dated position |
| `Events.FilterKeepsExactlyDatedInOrder` | Assets/Scripts/Navigation/Screens/EventSelection/EventSelectionScreen.cs:80 | the stored list is exactly the posts whose start and end dates are non-null, in their original order |
| `Events.FilterKeepsAllDated` | Assets/Scripts/Navigation/Screens/EventSelection/EventSelectionScreen.cs:80 | when every post has both dates the list is stored unchanged |
| `Events.FilterIdempotent` | Assets/Scripts/Navigation/Screens/EventSelection/EventSelectionScreen.cs:80 | filtering an already filtered list changes nothing |
| `Events.FilterConcat` | Assets/Scripts/Navigation/Screens/EventSelection/EventSelectionScreen.cs:80 | the filter of a concatenation is the concatenation of the filters |
| `Events.EnterActionOf` | Assets/Scripts/Navigation/Screens/EventSelection/EventSelectionScreen.cs:181-198 | "enter" opens a collection exactly when the level id is null and the collection id is not, and then opens that collection; otherwise it does nothing |
| `Carousel.ClampIndex` | Assets/Scripts/Navigation/Screens/EventSelection/EventSelectionScreen.cs:118 | an in-range index is kept, a negative or too-large one becomes 0, and on a non-empty list the result is in range |
| `Carousel.NextIndex` | Assets/Scripts/Navigation/Screens/EventSelection/EventSelectionScreen.cs:206 | next stays in [0, count), advances by one, and wraps from count-1 to 0 (`Mod` taken as the Euclidean remainder) |
| `Carousel.PreviousIndex` | Assets/Scripts/Navigation/Screens/EventSelection/EventSelectionScreen.cs:212 | previous stays in [0, count), steps back by one, and wraps from 0 to count-1 |
| `Carousel.PreviousUndoesNext` | Assets/Scripts/Navigation/Screens/EventSelection/EventSelectionScreen.cs:204-214 | next then previous, and previous then next, restore an in-range index |
| `Carousel.NextPressesWrap` | Assets/Scripts/Navigation/Screens/EventSelection/EventSelectionScreen.cs:204-208 | k <= count presses of next move k places forward, wrapping once past the last event |
| `Carousel.NextVisitsEveryEvent` | Assets/Scripts/Navigation/Screens/EventSelection/EventSelectionScreen.cs:204-208 | paging with next reaches every event within count presses and count presses return to the start |
| `EventSelection.EventSelectionScreen.constructor` | Assets/Scripts/Navigation/Screens/EventSelection/EventSelectionScreen.cs:14-41 | at process start the statics hold their declared values (no cached content, saved index -1), and initialisation leaves both sprites empty |
| `EventSelection.EventSelectionScreen.OnScreenBecameActive` | Assets/Scripts/Navigation/Screens/EventSelection/EventSelectionScreen.cs:43-62 | with cached content it reuses the cache without fetching and restores the saved index when it is >= 0 (then clamped); without a cache it shows the spinner and sends one request |
| `EventSelection.EventSelectionScreen.OnScreenBecameInactive` | Assets/Scripts/Navigation/Screens/EventSelection/EventSelectionScreen.cs:64-68 | the selected index is saved into the process-wide last index, nothing else changes |
| `EventSelection.EventSelectionScreen.LoadContent` | Assets/Scripts/Navigation/Screens/EventSelection/EventSelectionScreen.cs:70-77 | the spinner is shown and one more request is outstanding |
| `EventSelection.EventSelectionScreen.CompleteFetch` | Assets/Scripts/Navigation/Screens/EventSelection/EventSelectionScreen.cs:78-92 | success caches and shows the filtered posts and hides the spinner; failure hides the spinner, shows exactly one go-back prompt and leaves cache, list, index and token unchanged |
| `EventSelection.EventSelectionScreen.OnContentLoaded` | Assets/Scripts/Navigation/Screens/EventSelection/EventSelectionScreen.cs:95-120 | the list becomes the content, paging handlers are attached exactly when the count is not 1, the index is clamped, and on a non-empty list the selected event is loaded under a fresh token; an empty list makes the list indexer throw `ArgumentOutOfRangeException` after the handlers were attached and the index reset |
| `EventSelection.EventSelectionScreen.LoadEvent` | Assets/Scripts/Navigation/Screens/EventSelection/EventSelectionScreen.cs:122-124 | the new token is larger than every token issued before and becomes current; the downloads started are the event's cover and logo |
| `EventSelection.EventSelectionScreen.CompleteCover` | Assets/Scripts/Navigation/Screens/EventSelection/EventSelectionScreen.cs:139-142 | the downloaded cover is displayed if and only if its token is the current one; otherwise the cover is unchanged |
| `EventSelection.EventSelectionScreen.CompleteLogo` | Assets/Scripts/Navigation/Screens/EventSelection/EventSelectionScreen.cs:160-163 | the downloaded logo is displayed if and only if its token is the current one; otherwise the logo is unchanged |
| `EventSelection.EventSelectionScreen.NextEvent` | Assets/Scripts/Navigation/Screens/EventSelection/EventSelectionScreen.cs:204-208 | the index becomes the wrapped next index and that event is loaded under a fresh token; on an empty list `Mod(0)` throws (assuming `Mod` uses the integer `%`) and nothing changes |
| `EventSelection.EventSelectionScreen.PreviousEvent` | Assets/Scripts/Navigation/Screens/EventSelection/EventSelectionScreen.cs:210-214 | the index becomes the wrapped previous index and that event is loaded under a fresh token; on an empty list `Mod(0)` throws (assuming `Mod` uses the integer `%`) and nothing changes |
| `EventSelection.EventSelectionScreen.OnScreenChangeFinished` | Assets/Scripts/Navigation/Screens/EventSelection/EventSelectionScreen.cs:216-235 | leaving this screen clears both sprites; leaving for the main menu also clears the cache and resets the token to its minimum; any other transition keeps cache and token |
| `EventSelection.StaleCompletionIgnored` | Assets/Scripts/Navigation/Screens/EventSelection/EventSelectionScreen.cs:124-167 | after a newer load, completions of the older one leave both sprites as they were (returned as the sprites right after those completions), and the newer load's completions are displayed |
| `EventSelection.LeaveAndReturnRestoresSelection` | Assets/Scripts/Navigation/Screens/EventSelection/EventSelectionScreen.cs:50-67 | leaving for a screen other than the main menu and returning keeps the cached list and the selected index, sends no request, and loads the selected event's cover and logo again under the new current token (or throws on an empty cached list) |
| `EventSelection.MainMenuDiscardsSession` | Assets/Scripts/Navigation/Screens/EventSelection/EventSelectionScreen.cs:216-234 | after leaving for the main menu, a completion of any earlier load is discarded and returning to the screen fetches again |

The class `Valid()` invariant, kept by every method, states that the
current token is the reset value or the last one issued, that every listed
event has both dates, that a non-empty list has an in-range selection and an empty one has index 0, that
paging is never attached to a single event, and that a cached list is the
list being shown.

## Left out

- EventSelection.EventSelectionScreen.constructor: re-creating the screen while the statics survive is not modelled. `OnScreenInitialized` (lines 35-41) resets only the sprites, so a second instance would start with an empty list, index 0 and the minimum token while the cache stays set. The invariant's "a cached list is the list being shown" holds only for a screen created once per process.
- Tweening and visuals: colour and fade tweens, their durations and delays, `FitSpriteAspectRatio`, button alpha and `scaleOnClick`; only whether the paging handlers are attached is kept.
- The posts request itself (URL, authorization headers, JSON decoding): the response arrives as `CompleteFetch(Some(posts))` or `CompleteFetch(None)`; the error log line is not modelled.
- Asset loading and disposal through the asset memory (file cache, tags): a finished download is an opaque `Sprite` handed to `CompleteCover` / `CompleteLogo`.
- The real clock: tokens come from a counter, so two loads in the same clock tick (which would share a token) are not modelled.
- The interleaving of asynchronous tasks: each completion is one sequential call; the fade-out wait before a download is displayed is not modelled.
- The info banner: the enter and view-details listeners are installed only after the banner's leave animation, and the duration text is formatted in local time; the model keeps the enter dispatch as the pure `EnterActionOf` and leaves out the text, `Application.OpenURL` and the animation timing.
- The collection screen transition: `EnterActionOf` names the collection to open; setting `CollectionDetailsScreen.LoadedContent` and changing screens belong to other screens and are not part of this model.
- The `locked` branch of "enter" is an empty placeholder in the source and has no effect.
- The help button's tutorial prompt and the `Assert.IsNotNull` checks on cover and logo.
- Assets/Scripts/Navigation/Elements/AccentOverlay.cs is not part of this model: it only sets an overlay colour and text from a player setting.

/**
 * The event-selection screen: a carousel over the events fetched from the
 * posts endpoint, cached for the session, with cover and logo images loaded
 * asynchronously and guarded by a load token.
 *
 * Asynchronous completions (the posts fetch, the cover and logo downloads)
 * are explicit method calls made by the environment. The real clock that
 * stamps load tokens is the counter `clock`, which only grows.
 */
module EventSelection {
  import opened Wrappers
  import opened Events
  import opened Carousel

  /** An image handed back by the asset loader; its content is opaque here. */
  datatype Sprite = Sprite(handle: nat)

  /** The screens a transition can come from or go to, as far as this screen cares. */
  datatype ScreenRef = ThisScreen | MainMenu | OtherScreen(id: string)

  /** The cover and logo downloads started by one `LoadEvent`, stamped with its token. */
  datatype PendingLoad = PendingLoad(token: nat, cover: AssetRef, logo: AssetRef)

  /** An exception thrown by the screen's own code. */
  datatype Fault =
    | IndexOutOfRange  // `ArgumentOutOfRangeException` from `Events[selectedIndex]` on an empty list
    | DivideByZero     // `DivideByZeroException` from `Mod(0)` when paging through an empty list,
                       // assuming `Mod` is built on the integer `%`

  /** What showing an event did: start its image loads, or throw. */
  datatype Outcome = Started(load: PendingLoad) | Threw(fault: Fault)

  /** What activating the screen did: show the cached content, or start a fetch. */
  datatype Activation = ShowedCached(outcome: Outcome) | StartedFetch

  /** The reset value of the load token (`DateTimeOffset.MinValue`); never issued by a load. */
  const MinToken: nat := 0

  class EventSelectionScreen {
    /** The events being paged through. */
    var events: seq<EventMeta>
    var selectedIndex: int
    /** The token of the most recent `LoadEvent`, or `MinToken` after a reset. */
    var loadToken: nat
    /** The token source: the last token handed out. */
    var clock: nat

    /** Process-wide (static in the source): the session's cached event list. */
    var loadedContent: Option<seq<EventMeta>>
    /** Process-wide (static in the source): the index saved on deactivation. */
    var lastSelectedIndex: int

    /** The sprites displayed by the cover and logo images; `None` is no sprite. */
    var coverSprite: Option<Sprite>
    var logoSprite: Option<Sprite>

    /** Whether the next/previous click handlers are attached. */
    var pagingEnabled: bool
    var spinnerVisible: bool
    /** How many "could not connect" go-back prompts have been shown. */
    var goBackPrompts: nat
    /** Posts requests sent whose success or failure callback has not run yet. */
    var pendingRequests: nat

    /** The current token is the reset value or the last one issued. */
    ghost predicate TokenValid()
      reads this
    {
      loadToken == MinToken || loadToken == clock
    }

    /** A token that some `LoadEvent` handed out. */
    ghost predicate Issued(token: nat)
      reads this
    {
      MinToken < token <= clock
    }

    ghost predicate Valid()
      reads this
    {
      TokenValid()
      && (forall e :: e in events ==> HasDates(e))
      && (|events| > 0 ==> 0 <= selectedIndex < |events|)
      && (|events| == 0 ==> selectedIndex == 0)
      && (pagingEnabled ==> |events| != 1)
      && (loadedContent.Some? ==> loadedContent.value == events)
    }

    /** A freshly initialised screen: no content, no sprites, nothing cached yet. */
    constructor ()
      ensures Valid()
      ensures events == [] && selectedIndex == 0
      ensures loadToken == MinToken && clock == 0
      ensures loadedContent == None && lastSelectedIndex == -1
      ensures coverSprite == None && logoSprite == None
      ensures !pagingEnabled && !spinnerVisible && goBackPrompts == 0 && pendingRequests == 0
    {
      events := [];
      selectedIndex := 0;
      loadToken := MinToken;
      clock := 0;
      loadedContent := None;
      lastSelectedIndex := -1;
      coverSprite := None;
      logoSprite := None;
      pagingEnabled := false;
      spinnerVisible := false;
      goBackPrompts := 0;
      pendingRequests := 0;
    }

    /**
     * Shows cached content, restoring the saved index when there is one, or
     * fetches the content when nothing is cached.
     */
    method OnScreenBecameActive() returns (activation: Activation)
      requires Valid()
      modifies this`selectedIndex, this`events, this`pagingEnabled, this`clock, this`loadToken
      modifies this`spinnerVisible, this`pendingRequests
      ensures Valid()
      ensures old(loadedContent).Some? ==>
        activation.ShowedCached?
        && events == old(loadedContent).value
        && selectedIndex == ClampIndex(if lastSelectedIndex >= 0 then lastSelectedIndex else old(selectedIndex), |events|)
        && pagingEnabled == (|events| != 1)
        && (|events| > 0 ==> activation.outcome == Started(PendingLoad(loadToken, events[selectedIndex].cover, events[selectedIndex].logo))
                             && loadToken == clock == old(clock) + 1)
        && (|events| == 0 ==> activation.outcome == Threw(IndexOutOfRange) && loadToken == old(loadToken) && clock == old(clock))
        && spinnerVisible == old(spinnerVisible) && pendingRequests == old(pendingRequests)
      ensures old(loadedContent).None? ==>
        activation == StartedFetch
        && spinnerVisible && pendingRequests == old(pendingRequests) + 1
        && events == old(events) && selectedIndex == old(selectedIndex) && pagingEnabled == old(pagingEnabled)
        && loadToken == old(loadToken) && clock == old(clock)
    {
      if loadedContent.Some? {
        if lastSelectedIndex >= 0 {
          selectedIndex := lastSelectedIndex;
        }
        var outcome := OnContentLoaded(loadedContent.value);
        activation := ShowedCached(outcome);
      } else {
        LoadContent();
        activation := StartedFetch;
      }
    }

    /** Saves the selection so that the next activation can restore it. */
    method OnScreenBecameInactive()
      requires Valid()
      modifies this`lastSelectedIndex
      ensures Valid()
      ensures lastSelectedIndex == selectedIndex
    {
      lastSelectedIndex := selectedIndex;
    }

    /** Shows the spinner and sends the posts request. */
    method LoadContent()
      requires Valid()
      modifies this`spinnerVisible, this`pendingRequests
      ensures Valid()
      ensures spinnerVisible && pendingRequests == old(pendingRequests) + 1
    {
      spinnerVisible := true;
      pendingRequests := pendingRequests + 1;
    }

    /**
     * The callback of a posts request: `Some(posts)` on success, `None` on a
     * request error. Success caches the dated posts and shows them; failure
     * shows one go-back prompt. Both hide the spinner.
     */
    method CompleteFetch(response: Option<seq<EventMeta>>) returns (shown: Option<Outcome>)
      requires Valid() && pendingRequests > 0
      modifies this`spinnerVisible, this`pendingRequests, this`goBackPrompts, this`loadedContent
      modifies this`events, this`pagingEnabled, this`selectedIndex, this`clock, this`loadToken
      ensures Valid()
      ensures !spinnerVisible && pendingRequests == old(pendingRequests) - 1
      ensures response.Some? ==>
        loadedContent == Some(FilterEvents(response.value))
        && events == FilterEvents(response.value)
        && goBackPrompts == old(goBackPrompts)
        && selectedIndex == ClampIndex(old(selectedIndex), |events|)
        && pagingEnabled == (|events| != 1)
        && shown.Some?
        && (|events| > 0 ==> shown.value == Started(PendingLoad(loadToken, events[selectedIndex].cover, events[selectedIndex].logo))
                             && loadToken == clock == old(clock) + 1)
        && (|events| == 0 ==> shown.value == Threw(IndexOutOfRange) && loadToken == old(loadToken) && clock == old(clock))
      ensures response.None? ==>
        goBackPrompts == old(goBackPrompts) + 1
        && shown == None
        && loadedContent == old(loadedContent)
        && events == old(events) && selectedIndex == old(selectedIndex) && pagingEnabled == old(pagingEnabled)
        && loadToken == old(loadToken) && clock == old(clock)
    {
      pendingRequests := pendingRequests - 1;
      if response.Some? {
        var filtered := FilterEvents(response.value);
        spinnerVisible := false;
        loadedContent := Some(filtered);
        var outcome := OnContentLoaded(filtered);
        shown := Some(outcome);
      } else {
        goBackPrompts := goBackPrompts + 1;
        spinnerVisible := false;
        shown := None;
      }
    }

    /**
     * Shows `content` (always the cached list): attaches the paging handlers
     * unless there is exactly one event, clamps the selection and loads the
     * selected event. On an empty list the index access throws after the
     * handlers were attached and the index was reset.
     */
    method OnContentLoaded(content: seq<EventMeta>) returns (outcome: Outcome)
      requires TokenValid()
      requires loadedContent == Some(content)
      requires forall e :: e in content ==> HasDates(e)
      modifies this`events, this`pagingEnabled, this`selectedIndex, this`clock, this`loadToken
      ensures Valid()
      ensures events == content
      ensures pagingEnabled == (|content| != 1)
      ensures selectedIndex == ClampIndex(old(selectedIndex), |content|)
      ensures |content| > 0 ==>
        outcome == Started(PendingLoad(loadToken, content[selectedIndex].cover, content[selectedIndex].logo))
        && loadToken == clock == old(clock) + 1
      ensures |content| == 0 ==>
        outcome == Threw(IndexOutOfRange) && loadToken == old(loadToken) && clock == old(clock)
    {
      events := content;
      pagingEnabled := |content| != 1;
      selectedIndex := ClampIndex(selectedIndex, |content|);
      if |content| == 0 {
        outcome := Threw(IndexOutOfRange);
      } else {
        var load := LoadEvent(content[selectedIndex]);
        outcome := Started(load);
      }
    }

    /**
     * Stamps a new token, newer than every token issued before, and starts
     * the cover and logo downloads of `meta` under it.
     */
    method LoadEvent(meta: EventMeta) returns (load: PendingLoad)
      requires TokenValid()
      modifies this`clock, this`loadToken
      ensures TokenValid()
      ensures clock == old(clock) + 1 && loadToken == clock
      ensures load == PendingLoad(loadToken, meta.cover, meta.logo)
    {
      clock := clock + 1;
      loadToken := clock;
      load := PendingLoad(loadToken, meta.cover, meta.logo);
    }

    /** A cover download finished: it is displayed only if its load is still the current one. */
    method CompleteCover(token: nat, sprite: Sprite)
      requires Valid() && Issued(token)
      modifies this`coverSprite
      ensures Valid()
      ensures token == loadToken ==> coverSprite == Some(sprite)
      ensures token != loadToken ==> coverSprite == old(coverSprite)
    {
      if token != loadToken {
        return;
      }
      coverSprite := Some(sprite);
    }

    /** A logo download finished: it is displayed only if its load is still the current one. */
    method CompleteLogo(token: nat, sprite: Sprite)
      requires Valid() && Issued(token)
      modifies this`logoSprite
      ensures Valid()
      ensures token == loadToken ==> logoSprite == Some(sprite)
      ensures token != loadToken ==> logoSprite == old(logoSprite)
    {
      if token != loadToken {
        return;
      }
      logoSprite := Some(sprite);
    }

    /** Pages forward, wrapping from the last event to the first. */
    method NextEvent() returns (outcome: Outcome)
      requires Valid() && pagingEnabled
      modifies this`selectedIndex, this`clock, this`loadToken
      ensures Valid()
      ensures |events| > 0 ==>
        selectedIndex == NextIndex(old(selectedIndex), |events|)
        && outcome == Started(PendingLoad(loadToken, events[selectedIndex].cover, events[selectedIndex].logo))
        && loadToken == clock == old(clock) + 1
      ensures |events| == 0 ==>
        outcome == Threw(DivideByZero)
        && selectedIndex == old(selectedIndex) && loadToken == old(loadToken) && clock == old(clock)
    {
      if |events| == 0 {
        outcome := Threw(DivideByZero);
      } else {
        selectedIndex := NextIndex(selectedIndex, |events|);
        var load := LoadEvent(events[selectedIndex]);
        outcome := Started(load);
      }
    }

    /** Pages backward, wrapping from the first event to the last. */
    method PreviousEvent() returns (outcome: Outcome)
      requires Valid() && pagingEnabled
      modifies this`selectedIndex, this`clock, this`loadToken
      ensures Valid()
      ensures |events| > 0 ==>
        selectedIndex == PreviousIndex(old(selectedIndex), |events|)
        && outcome == Started(PendingLoad(loadToken, events[selectedIndex].cover, events[selectedIndex].logo))
        && loadToken == clock == old(clock) + 1
      ensures |events| == 0 ==>
        outcome == Threw(DivideByZero)
        && selectedIndex == old(selectedIndex) && loadToken == old(loadToken) && clock == old(clock)
    {
      if |events| == 0 {
        outcome := Threw(DivideByZero);
      } else {
        selectedIndex := PreviousIndex(selectedIndex, |events|);
        var load := LoadEvent(events[selectedIndex]);
        outcome := Started(load);
      }
    }

    /**
     * A screen transition finished. Leaving this screen clears both sprites;
     * leaving it for the main menu also drops the cached content and resets
     * the load token, so no download still in flight can be displayed.
     */
    method OnScreenChangeFinished(from: ScreenRef, to: ScreenRef)
      requires Valid()
      modifies this`coverSprite, this`logoSprite, this`loadedContent, this`loadToken
      ensures Valid()
      ensures from == ThisScreen ==> coverSprite == None && logoSprite == None
      ensures from != ThisScreen ==> coverSprite == old(coverSprite) && logoSprite == old(logoSprite)
      ensures from == ThisScreen && to == MainMenu ==> loadedContent == None && loadToken == MinToken
      ensures !(from == ThisScreen && to == MainMenu) ==>
        loadedContent == old(loadedContent) && loadToken == old(loadToken)
    {
      if from == ThisScreen {
        coverSprite := None;
        logoSprite := None;
        if to == MainMenu {
          loadedContent := None;
          loadToken := MinToken;
        }
      }
    }
  }

  /**
   * A download that belongs to an earlier `LoadEvent` is ignored once a newer
   * one has started: both sprites stay as they were (`coverAfterStale`,
   * `logoAfterStale` are the sprites right after the stale completions). The
   * newer load's own downloads are displayed.
   */
  method StaleCompletionIgnored(screen: EventSelectionScreen, first: EventMeta, second: EventMeta,
                                staleCover: Sprite, staleLogo: Sprite, cover: Sprite, logo: Sprite)
    returns (ghost coverAfterStale: Option<Sprite>, ghost logoAfterStale: Option<Sprite>)
    requires screen.Valid()
    modifies screen
    ensures screen.Valid()
    ensures coverAfterStale == old(screen.coverSprite) && logoAfterStale == old(screen.logoSprite)
    ensures screen.coverSprite == Some(cover) && screen.logoSprite == Some(logo)
  {
    var older := screen.LoadEvent(first);
    var newer := screen.LoadEvent(second);
    screen.CompleteCover(older.token, staleCover);
    screen.CompleteLogo(older.token, staleLogo);
    coverAfterStale, logoAfterStale := screen.coverSprite, screen.logoSprite;
    screen.CompleteCover(newer.token, cover);
    screen.CompleteLogo(newer.token, logo);
  }

  /**
   * Leaving for a screen other than the main menu and coming back keeps the
   * cached list and restores the selected event, without a new fetch.
   */
  method LeaveAndReturnRestoresSelection(screen: EventSelectionScreen, to: ScreenRef)
    returns (activation: Activation)
    requires screen.Valid() && screen.loadedContent.Some?
    requires to != MainMenu
    modifies screen
    ensures screen.Valid()
    ensures activation.ShowedCached?
    ensures |screen.events| > 0 ==>
      activation.outcome == Started(PendingLoad(screen.loadToken, screen.events[screen.selectedIndex].cover, screen.events[screen.selectedIndex].logo))
    ensures |screen.events| == 0 ==> activation.outcome == Threw(IndexOutOfRange)
    ensures screen.events == old(screen.events) && screen.selectedIndex == old(screen.selectedIndex)
    ensures screen.loadedContent == old(screen.loadedContent)
    ensures screen.pendingRequests == old(screen.pendingRequests)
  {
    screen.OnScreenBecameInactive();
    screen.OnScreenChangeFinished(ThisScreen, to);
    activation := screen.OnScreenBecameActive();
  }

  /**
   * Leaving for the main menu discards every download still in flight, and
   * coming back fetches the content again instead of reusing it.
   */
  method MainMenuDiscardsSession(screen: EventSelectionScreen, token: nat, cover: Sprite, logo: Sprite)
    returns (activation: Activation)
    requires screen.Valid() && screen.Issued(token)
    modifies screen
    ensures screen.Valid()
    ensures screen.coverSprite == None && screen.logoSprite == None
    ensures activation == StartedFetch && screen.spinnerVisible
    ensures screen.pendingRequests == old(screen.pendingRequests) + 1
  {
    screen.OnScreenBecameInactive();
    screen.OnScreenChangeFinished(ThisScreen, MainMenu);
    screen.CompleteCover(token, cover);
    screen.CompleteLogo(token, logo);
    activation := screen.OnScreenBecameActive();
  }
}

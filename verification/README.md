# SeikoYT front end: a verified model of its state logic

SeikoYT is a single-page streaming front end written as React components in
`App.tsx`. A visitor signs in, creates a profile (a username and a generated
avatar), and then browses a catalog. The main screen shows a featured entry
and one row per genre. Opening an entry shows a details modal, and a playable
entry opens a full-screen video player. The header has a search box, and a
chat assistant sits in a corner.

This project models the parts of that file that hold logic:

- **The video player** (`Player`). The component's state and the media
  element it drives are modelled in three layers:
  - a value, `PlayerState`, with the element as `Element`;
  - one step function per handler;
  - the classes `MediaElement` and `VideoPlayer`, whose methods update their
    fields in place and are proved to follow the step functions.

  The 3000 ms hide timer becomes the browser's set of pending hide timers plus
  the handle the component keeps. Its expiry is an explicit event. `play()`
  takes a flag for whether the environment allows playback.
- **`formatTime`** (`TimeFormat`). It works on real seconds `t >= 0`.
  JavaScript's truncating `%` is written out. The result reads back as the
  whole seconds of `t`.
- **The session gate** (`Session`). The top-level `App` picks one of three
  screens: login, profile setup or main. The profile is kept in local storage,
  modelled as a map from strings to strings. `JSON.parse` and `JSON.stringify`
  are passed in as functions.
- **The chat assistant** (`Chatbot`). `handleSend` is split into the half that
  runs before the service answers and the half that runs after.
- **The forms** (`Forms`):
  - the two profile-save checks;
  - the header search, which submits the query without surrounding whitespace.

  `String.prototype.trim` with ECMAScript's whitespace set is in `Text`.
- **The main screen** (`Catalog`, `MainApp`), with its state as a value,
  `MainState`, one step function per handler and the class `Main`:
  - the featured entry;
  - the de-duplicated genre list;
  - the per-genre rows;
  - the modal and player handlers.

Record shapes follow `types.ts`, in `Types`.

## Model

| member | source | states |
|---|---|---|
| TimeFormat.Minutes | App.tsx:23 | for t >= 0, the whole minutes of t: 60*m <= t < 60*m + 60 |
| TimeFormat.Seconds | App.tsx:24 | for t >= 0, the floor of JavaScript's truncating remainder lies in [0, 59] and minutes*60 + seconds is the whole seconds of t |
| TimeFormat.FormatTime | App.tsx:22-26 | the result has the shape `m:ss`: the minutes field reads as floor(t/60) with no leading zero unless it is the only digit, a colon, and exactly two digits that read as the remaining whole seconds, the first being `0` exactly below ten |
| TimeFormat.SecondsFieldTwoDigits | App.tsx:25 | the seconds field is exactly two digits reading back as the seconds, and starts with '0' exactly when the seconds are below 10 |
| TimeFormat.FormatTimeRoundTrip | App.tsx:22-26 | the string formatTime prints is in canonical `m:ss` form (no leading zero in the minutes, seconds below 60) and reads back as floor(t) seconds |
| Text.NatToString | App.tsx:25 | the decimal rendering of a whole number: digits only, value n, no leading zero except for 0, one character exactly below 10 |
| Text.Trim | App.tsx:153 | the result is a slice of the input with only whitespace cut from either end, starts and ends with a non-whitespace character, and is empty exactly when the input is all whitespace |
| Text.TrimIdempotent | App.tsx:309-310 | trimming a trimmed string changes nothing |
| Forms.ValidateNewProfile | App.tsx:152-157 | accepted exactly when the trimmed username and the avatar URL are both non-empty; the saved profile keeps the username as typed; a refusal carries the setup message |
| Forms.ValidateProfileEdit | App.tsx:230-237 | accepted exactly when the trimmed username is non-empty, whatever the picture URL; a refusal carries the edit message |
| Forms.SetupIsStricterThanEdit | App.tsx:152-157 | every new profile the setup form accepts the edit form accepts too; with an avatar present the two agree |
| Forms.SubmittedQuery | App.tsx:307-312 | a query is submitted exactly when the box is not all whitespace, and it is the box's trimmed text, non-empty, with no whitespace at either end and unchanged by a second trim |
| Catalog.AllGenres | App.tsx:857 | every genre of every entry is in the flattened list, and only those |
| Catalog.DedupFrom | App.tsx:857 | the Set-spread keeps exactly the values not yet seen, each once, in order of their first appearance, never more values than given |
| Catalog.Genres | App.tsx:857 | the genre list holds exactly the flattened genres, each once, ordered by first appearance in the flattened list |
| Catalog.AllGenresIsFlatMap | App.tsx:857 | the flattening is flatMap: empty for no entries, an entry's own genres for one, and it distributes over concatenation (so order and repetitions are fixed) |
| Catalog.RowContents | App.tsx:923 | an entry is in genre g's row exactly when it is in the catalog and lists g |
| Catalog.RowContentsIsFilter | App.tsx:923 | a row is the filter of the catalog: empty for no entries, the entry or nothing for one, and it distributes over concatenation (catalog order and repetitions kept) |
| Catalog.RowsCoverCatalog | App.tsx:857-923 | the genre list names exactly the genres some entry has, and every entry appears in the row of each of its genres |
| Catalog.FirstFeaturedIndex | App.tsx:856 | the index `find` stops at: no featured entry before it, a featured one at it |
| Catalog.FeaturedContent | App.tsx:856 | the first featured entry, else the first entry; present exactly when the catalog is non-empty |
| Player.Mount | App.tsx:699-751 | the initial state keeps the invariant, plays, shows the controls at volume 1 and rate 1, has zero progress, duration and time and subtitles off, listens exactly when an element exists, tells the element to play, and then has exactly the ref's hide pending |
| Player.PlayElement | App.tsx:743 | `play()` unpauses the element unless the environment refuses; nothing else about the element changes |
| Player.PauseElement | App.tsx:761 | `pause()` pauses the element; nothing else about it changes |
| Player.ScheduleHide | App.tsx:715-720 | the ref's pending hide is cancelled and one new hide is pending, whose handle the ref holds; no other field changes; the invariant is kept |
| Player.OnHideTimer | App.tsx:719 | only a still-pending hide timer has an effect: it hides the controls, is no longer pending, and changes nothing else |
| Player.AtMostOneHidePending | App.tsx:715-720 | under the invariant at most one hide is pending |
| Player.MouseMoveRestartsCountdown | App.tsx:753-756 | a mouse move shows the controls and leaves exactly one, new, hide pending: older timers do nothing, the new one hides the controls; nothing besides the controls flag and the timer bookkeeping changes |
| Player.TeardownCancelsEverything | App.tsx:746-750 | after teardown no hide is pending, no timer and no element event changes anything |
| Player.TimeUpdateTracksElement | App.tsx:726-731 | with a non-zero duration the time and the percentage follow the element (progress*duration = time*100, in [0, 100] for a time within the duration) and nothing else changes; with a zero duration nothing changes |
| Player.ScrubThenTimeUpdate | App.tsx:765-769 | scrubbing to value then receiving the time update shows value/100*duration and a progress of exactly value |
| Player.ScrubSeeksOnlyTheElement | App.tsx:765-769 | without an element scrubbing does nothing; with one it sets only the element's time, to value/100*duration |
| Player.TogglePlayPauseDirectives | App.tsx:758-763 | the toggle flips isPlaying, two toggles restore it, and the element is told to pause or to play (playing unless the environment refuses); only isPlaying and the element's paused flag change |
| Player.VolumeControls | App.tsx:771-776 | without an element the slider changes nothing; with one it sets both volumes to the slider value and nothing else; the mute button maps an audible volume to 0 and a silent one to 1, on the displayed volume only, and changes nothing else |
| Player.ChangePlaybackRateEffect | App.tsx:778-783 | with an element the chosen rate becomes the displayed and the element's rate and the menu closes, nothing else changing; without one nothing changes |
| Player.SpeedOptionsAreTheFourRates | App.tsx:829 | the menu offers exactly 0.5, 1, 1.5 and 2 |
| Player.ToggleSubtitlesTwice | App.tsx:785-792 | no element or no track: nothing changes; otherwise only the first track and the flag change, the flag agrees with the track, and two toggles restore the tracks |
| Player.MetadataHidesSubtitles | App.tsx:732-739 | metadata load records the duration; without a track nothing else changes; with one it hides only the first track and clears the flag, nothing else changing (the element is neither paused nor moved); toggling keeps flag and track in agreement |
| Player.OnMouseMove | App.tsx:753-756 | the invariant is kept |
| Player.OnTimeUpdate | App.tsx:726-731 | the invariant is kept |
| Player.OnLoadedMetadata | App.tsx:732-739 | the invariant is kept |
| Player.OnPlayPauseClick | App.tsx:758-763 | the invariant is kept |
| Player.OnScrub | App.tsx:765-769 | the invariant is kept |
| Player.OnMuteClick | App.tsx:819 | the invariant (volume in [0, 1]) is kept |
| Player.OnSpeedMenuClick | App.tsx:826 | the speed menu opens when closed and closes when open, and nothing else changes; the invariant is kept |
| Player.OnVolumeChange | App.tsx:771-776 | the invariant (volume in [0, 1]) is kept |
| Player.OnRateChosen | App.tsx:778-783 | the invariant (rate one of the menu's) is kept |
| Player.OnSubtitlesClick | App.tsx:785-792 | the invariant is kept |
| Player.OnClose | App.tsx:746-750 | the invariant is kept |
| Player.MediaElement.Play | App.tsx:743 | the element plays unless the environment refuses; nothing else changes |
| Player.MediaElement.Pause | App.tsx:761 | the element is paused; nothing else changes |
| Player.VideoPlayer.constructor | App.tsx:699-751 | the component's state is the mount state, which keeps the invariant |
| Player.VideoPlayer.HideControls | App.tsx:715-720 | the state becomes ScheduleHide of the old state, and the invariant is kept |
| Player.VideoPlayer.HideTimerFires | App.tsx:719 | the state becomes OnHideTimer of the old state, and the invariant is kept |
| Player.VideoPlayer.HandleMouseMove | App.tsx:753-756 | the state becomes OnMouseMove of the old state, and the invariant is kept |
| Player.VideoPlayer.HandleTimeUpdate | App.tsx:726-731 | the state becomes OnTimeUpdate of the old state, and the invariant is kept |
| Player.VideoPlayer.HandleLoadedMetadata | App.tsx:732-739 | the state becomes OnLoadedMetadata of the old state, and the invariant is kept |
| Player.VideoPlayer.TogglePlayPause | App.tsx:758-763 | the state becomes OnPlayPauseClick of the old state, and the invariant is kept |
| Player.VideoPlayer.HandleScrub | App.tsx:765-769 | the state becomes OnScrub of the old state, and the invariant is kept |
| Player.VideoPlayer.HandleVolumeChange | App.tsx:771-776 | the state becomes OnVolumeChange of the old state, and the invariant is kept |
| Player.VideoPlayer.ToggleMute | App.tsx:819 | the state becomes OnMuteClick of the old state, and the invariant is kept |
| Player.VideoPlayer.ToggleSpeedMenu | App.tsx:826 | the state becomes OnSpeedMenuClick of the old state, and the invariant is kept |
| Player.VideoPlayer.ChangePlaybackRate | App.tsx:778-783 | the state becomes OnRateChosen of the old state, and the invariant is kept |
| Player.VideoPlayer.ToggleSubtitles | App.tsx:785-792 | the state becomes OnSubtitlesClick of the old state, and the invariant is kept |
| Player.VideoPlayer.Close | App.tsx:746-750 | the state becomes OnClose of the old state, and the invariant is kept |
| Session.ScreenOf | App.tsx:1007-1015 | login screen exactly when signed out, profile setup exactly when signed in without a profile, main screen exactly when signed in with one |
| Session.Initial | App.tsx:975-976 | the first render is signed out and shows the login screen |
| Session.LoadStoredProfile | App.tsx:978-990 | the load effect never changes the sign-in flag |
| Session.Login | App.tsx:978-994 | signing in always leaves the user signed in with the gate's invariant |
| Session.Logout | App.tsx:996-1000 | the login screen, no profile, the stored profile removed and every other key kept |
| Session.SaveProfile | App.tsx:1002-1005 | the profile is held and stored under its key, other keys are kept and no key is added besides the profile key; when signed in the main screen shows |
| Session.LoginOutcomes | App.tsx:978-990 | signing in with nothing stored or a stored null gives profile setup; a stored profile gives the main screen with it; unparsable text gives profile setup and is removed from storage |
| Session.SaveReloadLogin | App.tsx:1002-1005 | a saved profile is restored by the next sign-in on the same storage when parse inverts stringify |
| Session.LogoutThenLogin | App.tsx:996-1000 | after sign-out the next sign-in always leads to profile setup |
| Session.GatePreserved | App.tsx:1007-1015 | every transition keeps a profile only while signed in |
| Session.App.constructor | App.tsx:975-976 | the component starts in the initial state |
| Session.App.HandleLogin | App.tsx:978-994 | the state becomes Login of the old state |
| Session.App.HandleLogout | App.tsx:996-1000 | the state becomes Logout of the old state |
| Session.App.HandleProfileSave | App.tsx:1002-1005 | the state becomes SaveProfile of the old state |
| Chatbot.CanSend | App.tsx:636 | a send goes ahead exactly when the box is not all whitespace and no reply is outstanding |
| Chatbot.Send | App.tsx:634-641 | a blank box or an outstanding reply changes nothing; otherwise the user's message is appended, the box cleared and loading set |
| Chatbot.Reply | App.tsx:643-647 | exactly the reply is appended and loading cleared |
| Chatbot.SendThenReply | App.tsx:634-648 | a send is refused exactly when the box is blank or a reply is outstanding; an accepted send plus its reply keeps the earlier messages as a prefix and appends the user's message then the reply; a second send while loading does nothing |
| Chatbot.Chat.constructor | App.tsx:619-625 | closed, holding only the greeting, empty box, not loading |
| Chatbot.Chat.HandleSend | App.tsx:634-643 | the state becomes Send of the old state, and the request is the old box text exactly when the send is accepted |
| Chatbot.Chat.ReceiveReply | App.tsx:643-647 | the state becomes Reply of the old state |
| Chatbot.Chat.ToggleOpen | App.tsx:692 | only the open flag flips |
| Chatbot.Chat.SetInput | App.tsx:682 | only the box text changes |
| MainApp.ShownModal | App.tsx:938-969 | the rendered modal is the active one, except that the details modal needs a selected entry |
| MainApp.Initial | App.tsx:848-854 | the first render: home page, no modal shown, no search results, not loading, no video |
| MainApp.OnNavigate | App.tsx:905 | only the page changes, to the chosen one |
| MainApp.OnCardClick | App.tsx:859-862 | the details modal is shown on the clicked entry; only the modal and the selection change |
| MainApp.OnHeroDetailsClick | App.tsx:864-867 | the featured entry is selected and the details modal opened; it is shown exactly when the catalog is non-empty; only the modal and the selection change |
| MainApp.OnPlayClick | App.tsx:869-874 | a truthy URL closes the modal and plays that URL, changing nothing else (the selection is kept); any other leaves the state unchanged |
| MainApp.OnSearch | App.tsx:876-880 | the search modal is shown for the query, empty and loading; only those four fields change |
| MainApp.OnSearchResults | App.tsx:881-883 | the results are stored and loading ends; nothing else changes |
| MainApp.OnAiToolsClick | App.tsx:886-888 | the AI modal is shown; only the active modal changes |
| MainApp.OnProfileClick | App.tsx:890-892 | the profile modal is shown; only the active modal changes |
| MainApp.OnCloseModal | App.tsx:894-897 | no modal and no selection; nothing else changes (player, page and search kept) |
| MainApp.OnClosePlayer | App.tsx:936 | the player closes; nothing else changes |
| MainApp.Apply | App.tsx:859-897 | with a non-empty catalog, every user action keeps the details modal from being open without an entry |
| MainApp.DetailsModalAlwaysHasEntry | App.tsx:938-946 | with a non-empty catalog, after any sequence of user actions the details modal has an entry and the rendered modal is the active one |
| MainApp.PlayFromDetails | App.tsx:869-874 | playing from the details modal closes it, plays the entry's video and keeps the entry selected; closing the modal never stops the video, closing the player never closes a modal |
| MainApp.Main.constructor | App.tsx:848-854 | the component starts in the initial state |
| MainApp.Main.Navigate | App.tsx:905 | the state becomes OnNavigate of the old state |
| MainApp.Main.HandleCardClick | App.tsx:859-862 | the state becomes OnCardClick of the old state |
| MainApp.Main.HandleHeroDetailsClick | App.tsx:864-867 | the state becomes OnHeroDetailsClick of the old state |
| MainApp.Main.HandlePlayClick | App.tsx:869-874 | the state becomes OnPlayClick of the old state |
| MainApp.Main.HandleSearch | App.tsx:876-880 | the state becomes OnSearch of the old state |
| MainApp.Main.ReceiveSearchResults | App.tsx:881-883 | the state becomes OnSearchResults of the old state |
| MainApp.Main.HandleAiToolsClick | App.tsx:886-888 | the state becomes OnAiToolsClick of the old state |
| MainApp.Main.HandleProfileClick | App.tsx:890-892 | the state becomes OnProfileClick of the old state |
| MainApp.Main.CloseModal | App.tsx:894-897 | the state becomes OnCloseModal of the old state |
| MainApp.Main.ClosePlayer | App.tsx:936 | the state becomes OnClosePlayer of the old state |

## Left out

- The full-screen button (App.tsx:794-803) and its `alert` are browser effects; they are not modelled.
- `fileToBase64`, the `FileReader` uploads and the avatar, image-editing and image-generation handlers are browser I/O around the AI service; they are not modelled.
- `services/geminiService.ts` is not part of this model. Chat replies and search results enter as arbitrary values (the fallback text included).
- Player.MediaElement.Play: the promise that `play()` returns is reduced to the `playPermitted` flag. A refusal leaves the element paused while `isPlaying` stays true, and its logging is left out.
- Player.Mount: a change of `src` while the player stays mounted is not modelled. The page unmounts the player on close and mounts a new one for a new URL.
- Player.OnScrub: the browser's clamping of `currentTime` to the media's range is not modelled. The element takes the computed time as it is.
- Player.OnTimeUpdate: NaN and Infinity durations and IEEE rounding are not modelled. Numbers are exact reals, and only the zero-duration guard is kept.
- Player.OnLoadedMetadata: text tracks are only `hidden` or `showing`. The `disabled` mode is not modelled.
- Player.ScheduleHide: the 3000 ms delay is not timed. A pending hide fires only when the `OnHideTimer` event is delivered.
- TimeFormat.FormatTime: negative, NaN and infinite times are excluded by its precondition. The player only passes element times and durations, which are never negative.
- Session.LoadStoredProfile: parsed JSON that is neither `null` nor a profile is not modelled (`ParseOutcome` has three cases). `console.error` is left out.
- Rendering, the scroll and click-outside listeners of the header (App.tsx:289-305), `scrollIntoView` and the CSS-driven control visibility are not modelled.
- `MOCK_CONTENT` is not part of this model; the catalog is any sequence of entries.
- MainApp.Main.ReceiveSearchResults: responses that overlap are applied in whatever order they arrive. The model does not discard a stale one, and neither does the source.

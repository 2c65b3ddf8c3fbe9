# MusicToasts notification orchestration, modelled in Dafny

MusicToasts watches the operating system's "now playing" media state. For each
newly detected track it shows a desktop toast with three buttons: Fun Fact, Ask
a Question and Show Lyrics. Each button leads to a follow-up toast. The lyrics
and the fun fact come from providers, and so does the answer to a typed
question. Every provider failure becomes a uniform two-line error toast.

This project models the three stateful pieces of that orchestration:

- `toast_manager.dfy` (module `Toasts`) covers the toast registry (`ToastManager`).
  It is an integer-keyed table of toasts with a counter that only goes up.
  Every operation on an id that is not in the table does nothing.
  The registry is a `class` whose methods update the table in place.
  Each method is specified by a function on the abstract `Registry` value.
  The lemmas about those functions state the registry's guarantees: fresh ids,
  ids never reused, text replaced, buttons/inputs/images appended in order,
  callbacks overwritten, display and destroy. Calls to the notification
  surface are kept in a ghost log.
- `media_listener.dfy` (module `Media`) covers the track-change detector
  (`MediaListener`). A polled `(artist, title)` is adopted only when it is
  present, both fields are non-empty, and it differs from the stored track.
  Adopting fires the callback once, if one is set. Lemmas cover series of
  polls: the same track twice fires once, two distinct tracks fire twice,
  incomplete polls never fire, and a repeated poll fires at most once.
- `main_app.dfy` (module `App`) covers the orchestrator (`MainApp`): the
  initial, error, lyrics, fun-fact, ask and response toast builders, the two
  activation handlers, and one poll cycle. The pure parts are functions: the
  failure test, the space-joined error messages, the prompts with their
  100-character cut, the tag dispatch, and the *effect* of each action (the
  toast it shows and the provider requests it makes). Each builder method is
  proved to perform exactly its effect: every request log other than the
  effect's own, the cover-art log included, is left unchanged.
- `pytext.dfy` (module `PyText`) holds the Python string semantics the
  messages depend on: `str(int)` (with a parser and a round-trip lemma),
  `s[:n]` and `sep.join(parts)`.
- `common.dfy` (module `Common`) holds `Option` and Python truthiness of
  optional strings.

Providers are not modelled. Each builder receives the provider's answer as a
parameter: `coverArt: Option<string>` for the cover-art provider, and a
`ProviderResult(status, payload)` for the lyrics and assistant providers.
`MainApp` keeps ghost logs of the requests it made (`assistantPrompts`,
`lyricsRequests`, `coverArtRequests`). This is how the contracts state "no
assistant call" and "exactly one assistant call". The Python closures bound as
toast callbacks become the datatype `CallbackKind`, and a press on a toast
becomes `MainApp.Activate(id, tag, inputs, reply)`.

Three details of the code are easy to misread; the model follows the code exactly:

- The error header is `"Error! :( "`, with a trailing space.
- The failure message does not omit absent parts. `" ".join` always puts
  two spaces, so a missing status gives a double space.
- A status code of 0 prints as empty, like a missing one, because 0 is falsy
  in Python.

## Model

| member | source | states |
|---|---|---|
| `Toasts.ToastManager.constructor` | src/utils/toast_manager.py:9-13 | a new manager has an empty table and will hand out id 1 first |
| `Toasts.ToastManager.CreateNewToast` | src/utils/toast_manager.py:15-22 | returns the old counter, which was not in the table, advances the counter by one and registers an empty toast there |
| `Toasts.ToastManager.AddTextToToast` | src/utils/toast_manager.py:24-27 | new state is `AddText` of the old: text replaced when the id is present, nothing changed otherwise |
| `Toasts.ToastManager.AddImageToToast` | src/utils/toast_manager.py:29-32 | new state is `AddImage` of the old: image appended when the id is present, no-op otherwise |
| `Toasts.ToastManager.AddButtonToToast` | src/utils/toast_manager.py:34-37 | new state is `AddButton` of the old: button appended when the id is present, no-op otherwise |
| `Toasts.ToastManager.AddInputToToast` | src/utils/toast_manager.py:39-43 | new state is `AddInput` of the old: text box appended when the id is present, no-op otherwise |
| `Toasts.ToastManager.SetToastActivatedCallback` | src/utils/toast_manager.py:45-48 | new state is `SetCallback` of the old: handler rebound when the id is present, no-op otherwise |
| `Toasts.ToastManager.DisplayToast` | src/utils/toast_manager.py:50-53 | new state is `Display` of the old: one Show call logged when the id is present, no-op otherwise |
| `Toasts.ToastManager.DestroyToast` | src/utils/toast_manager.py:55-58 | new state is `Destroy` of the old: entry popped and one Remove call logged when present, no-op otherwise |
| `Toasts.CreateIsFresh` | src/utils/toast_manager.py:15-22 | the id handed out is not in the table; afterwards it maps to an empty toast, the counter is one higher, and every other entry and the surface log are unchanged |
| `Toasts.ApplyPreservesWellFormed` | src/utils/toast_manager.py:15-58 | every operation keeps all table ids between 1 and the counter |
| `Toasts.MissingIdIsNoop` | src/utils/toast_manager.py:24-58 | every operation other than create on an id not in the table leaves the table, the counter and the surface log unchanged |
| `Toasts.AddTextReplaces` | src/utils/toast_manager.py:24-27 | setting text twice leaves only the second list |
| `Toasts.SetCallbackOverwrites` | src/utils/toast_manager.py:45-48 | binding a handler twice leaves only the second one |
| `Toasts.AddButtonsInOrder` | src/utils/toast_manager.py:34-37 | adding buttons one by one appends them, in order, after the earlier ones; other fields, other toasts, the counter and the surface log are unchanged |
| `Toasts.AddInputAppends` | src/utils/toast_manager.py:39-43 | adding a text box keeps earlier ones in order and puts the new one last |
| `Toasts.AddImageAppends` | src/utils/toast_manager.py:29-32 | adding an image keeps earlier ones in order and puts the new one last |
| `Toasts.DisplayKeepsTable` | src/utils/toast_manager.py:50-53 | display leaves table and counter alone and logs one Show of the toast as it stands |
| `Toasts.DestroyRemovesOnlyId` | src/utils/toast_manager.py:55-58 | after destroy the id is absent, every other entry is unchanged and the counter does not move back |
| `Toasts.IssuedIdsIncrease` | src/utils/toast_manager.py:15-17 | over any sequence of operations, destroys included, handed-out ids strictly increase, were never in the table before and stay below the counter: no id is reused |
| `Media.MediaListener.constructor` | src/utils/media_listener.py:9-11 | no current track and no callback |
| `Media.MediaListener.SetOnNewTrackCallback` | src/utils/media_listener.py:13-14 | sets whether a callback is present and leaves the current track alone |
| `Media.MediaListener.CheckNewTrack` | src/utils/media_listener.py:26-31 | new state and callback call are exactly those of one `Check` of the polled answer |
| `Media.IgnoredPollChangesNothing` | src/utils/media_listener.py:28 | an absent poll, a poll with an empty artist or title, or one equal to the stored track changes nothing and fires nothing |
| `Media.NewTrackIsAdopted` | src/utils/media_listener.py:28-31 | any other poll becomes the current track and fires the callback with it exactly when one is set; with no callback the track is still adopted |
| `Media.SameTrackTwiceFiresOnce` | src/utils/media_listener.py:28-31 | the same valid pair polled twice fires once (when new and a callback is set) and never twice |
| `Media.DistinctTracksFireTwice` | src/utils/media_listener.py:28-31 | two distinct valid pairs polled in turn fire twice, in order |
| `Media.IncompletePollsNeverFire` | src/utils/media_listener.py:28 | any series of absent or incomplete polls fires nothing and leaves the state unchanged, whatever the prior state |
| `Media.RepeatedPollFiresAtMostOnce` | src/utils/media_listener.py:28-31 | polling one answer n times fires at most once, and once exactly when it is new and a callback is set |
| `Media.IgnoredPolls` | src/utils/media_listener.py:28 | an answer that is not adopted fires nothing however often it is repeated |
| `App.AiFeaturesEnabled` | src/main.py:11 | AI is enabled exactly when endpoint, key and model are all present and non-empty |
| `App.Failed` | src/main.py:71 | an answer is a failure exactly when its status is not 200 or its payload is missing or empty |
| `App.PayloadText` | src/main.py:73 | the payload part is the payload exactly when it is a non-empty string, and empty otherwise |
| `App.FailureMessage` | src/main.py:72-73 | a failure message starts with the prefix and one space, ends with the payload text, and is two characters longer than its three parts together |
| `App.StatusText` | src/main.py:73 | the status part is empty exactly for a missing or zero status, otherwise it is `str(status)` |
| `App.FailureMessageLayout` | src/main.py:72-73 | a failure message is prefix, space, status text, space, payload text, with length to match |
| `App.FailureMessageWithoutStatus` | src/main.py:72-73 | with no status the prefix and the payload are separated by two spaces |
| `App.FailureMessageShowsStatus` | src/main.py:92-94 | a non-zero status appears as its decimal text between prefix and payload |
| `App.LyricsNotFoundMessage` | src/main.py:72-73 | the lyrics-not-found answer without a status yields "Could not fetch lyrics.  Could not find the lyrics for: One More Time by Daft Punk." |
| `App.FunFactPrompt` | src/main.py:87-89 | the fun-fact prompt is bounded by its fixed text plus 200 characters; with short names it embeds them whole |
| `App.FunFactPromptSeesFirst100` | src/main.py:88 | only the first 100 characters of title and artist affect the fun-fact prompt |
| `App.AskPrompt` | src/main.py:121-122 | the question prompt starts "Regarding the song ", continues with the title, " by ", the artist and ". ", ends with the verbatim question, and its length grows with all three inputs: nothing is cut |
| `App.Dispatch` | src/main.py:47-53 | a tag selects a follow-up exactly when it is that follow-up's button tag; any other tag selects none |
| `App.DispatchFollowUpTag` | src/main.py:47-53 | every follow-up's tag selects that follow-up |
| `App.InitialButtonsSelect` | src/main.py:33-53 | the three initial buttons, in order, select fun fact, ask a question and lyrics |
| `App.SentQuestion` | src/main.py:117-120 | a question is sent exactly when the tag is `button_Send` and the `question` input is present and non-empty, and it is that input |
| `App.ErrorToast` | src/main.py:60-66 | an error toast has exactly the lines `"Error! :( "` and the message, no image, button, input or handler, for any message |
| `App.InitialToast` | src/main.py:26-55 | the initial toast has lines "Now Playing:", title, "by " + artist, the three buttons in order, no input, an image exactly when the cover-art answer is a non-empty path, and the dispatch handler for the track |
| `App.AskToast` | src/main.py:108-114 | the ask toast has two lines, one text box `('question','Your question:','')`, one button `("Send","button_Send")` and the ask handler for the track |
| `App.LyricsHeader` | src/main.py:77 | the lyrics header opens "Here are the lyrics for ", names the title next, then " by ", and ends with the artist and a colon |
| `App.LyricsLines` | src/main.py:71-77 | two lines; the first is the error header exactly on failure; on failure the second is the lyrics failure message, otherwise the lyrics under a header naming track and artist |
| `App.FunFactLines` | src/main.py:91-98 | two lines; error lines with the fun-fact failure message on failure, otherwise "Fun fact!" and the response |
| `App.AnswerLines` | src/main.py:124-129 | on failure the error lines with the answer failure message; on success the response alone, one line, no header |
| `App.FunFactSuccessLines` | src/main.py:98 | a 200 answer "Fact text" gives the lines "Fun fact!", "Fact text" |
| `App.LyricsEffect` | src/main.py:68-80 | the lyrics action makes one lyrics request for the track, no assistant call, and shows a toast without buttons or inputs |
| `App.FunFactEffect` | src/main.py:82-101 | the fun-fact action makes one assistant call with the fun-fact prompt when AI is enabled and none otherwise, in which case it shows the fixed not-enabled error toast |
| `App.AskEffect` | src/main.py:103-114 | the ask action makes no provider call and shows the ask toast, or the not-enabled error toast when AI is disabled |
| `App.ResponseEffect` | src/main.py:136-142 | the response action makes no provider request and shows a text-only toast with no handler; for a non-empty response its lines are exactly the success lines of an answer |
| `App.SendEffect` | src/main.py:116-129 | a press on the ask toast makes at most one assistant call; it makes one, with the untruncated question prompt, and shows one toast exactly when Send comes with a non-empty question |
| `App.InitialClickEffect` | src/main.py:47-53 | a press on the initial toast shows a toast exactly when its tag selects a follow-up, and otherwise does nothing; it asks for lyrics only for the lyrics tag, and calls the assistant only for the fun-fact tag with AI enabled |
| `App.ActivationEffect` | src/main.py:47-131 | a toast without a handler does nothing; any activation makes at most one assistant call and one lyrics request |
| `App.NoAssistantCallWithoutAi` | src/main.py:82-106 | with AI disabled, no activation of the initial toast or of a handler-less toast calls the assistant |
| `App.MainApp.constructor` | src/main.py:18-24 | empty registry, no track, the new-track callback set, no requests made, and AI enabled exactly per the three settings |
| `App.MainApp.MakeInitialToast` | src/main.py:26-58 | asks for cover art once, publishes exactly `InitialToast` under the next id (shown in both cover-art cases) and returns that id |
| `App.MainApp.MakeTextToast` | src/main.py:61-65 | publishes a text-only toast with exactly the given lines under the next id and returns that id |
| `App.MainApp.MakeErrorToast` | src/main.py:60-66 | publishes the error toast under the next id, with no provider call |
| `App.MainApp.MakeLyricsToast` | src/main.py:68-80 | performs exactly `LyricsEffect` and returns the new toast's id |
| `App.MainApp.MakeAiFunFactToast` | src/main.py:82-101 | performs exactly `FunFactEffect` and returns the new toast's id |
| `App.MainApp.MakeAskAiToast` | src/main.py:103-134 | performs exactly `AskEffect` and returns the new toast's id |
| `App.MainApp.MakeAiResponseToast` | src/main.py:136-142 | publishes a single-line toast holding the response |
| `App.MainApp.OnAskButtonClick` | src/main.py:116-129 | performs exactly `SendEffect`: no call and no toast unless Send with a non-empty question |
| `App.MainApp.OnInitialToastClick` | src/main.py:47-53 | performs exactly `InitialClickEffect`: routes lyrics, fun fact and ask tags to their builders, creates nothing for any other tag |
| `App.MainApp.Activate` | src/main.py:55-131 | a press on a toast not in the registry does nothing; otherwise it performs the effect of the handler bound to that toast; with AI disabled no press calls the assistant, since `Valid` keeps ask toasts out of the registry then |
| `App.MainApp.OnNewTrack` | src/main.py:144-145 | builds the initial toast for the reported track |
| `App.MainApp.PollOnce` | src/main.py:147-150 | one poll cycle: the listener takes one `Check` step, and exactly when it fires the initial toast for the adopted track is published |
| `PyText.NatToString` | src/main.py:73 | `str` of a natural number is a non-empty digit string that starts with '0' only for zero |
| `PyText.NatToStringRoundTrip` | src/main.py:73 | reading the digits back gives the number |
| `PyText.IntToString` | src/main.py:73 | `str` of an integer is non-empty, starts with '-' exactly for negatives, and is decimal digits otherwise |
| `PyText.IntToStringRoundTrip` | src/main.py:73 | `str` of an integer, negative ones included, parses back to it |
| `PyText.Take` | src/main.py:88 | `s[:n]` is a prefix of `s` of length at most `n`, and all of `s` when shorter |
| `PyText.Join` | src/main.py:72 | a join starts with its first part and ends with its last |
| `PyText.JoinThree` | src/main.py:72-73 | joining three parts puts the separator between neighbours only |

## Left out

- Provider internals (cover art, lyrics, assistant) are left out: HTTP requests, JSON decoding, URL quoting and temporary files. Each answer is a parameter, and only the requests made are logged. The lyrics provider's 404-to-message mapping belongs to that HTTP layer.
- The operating system's media-session query is left out. Its answer is the `polled` parameter of `CheckNewTrack` and `PollOnce`.
- The endless `run` loop, its 3-second sleep and the async plumbing are left out. One iteration is `PollOnce`.
- Concurrency is left out. Presses (`Activate`) and poll cycles (`PollOnce`) are atomic calls made one at a time. In the source, the surface runs the handlers bound through `on_activated` (src/utils/toast_manager.py:48) whenever it calls them. Nothing serialises them with the poll loop: there is no lock and no queue. `create_new_toast` reads and then bumps the counter in two steps, so `Toasts.IssuedIdsIncrease` holds only for calls that do not overlap.
- The source has no per-cycle exception isolation: `run` (src/main.py:147-150) awaits each poll with no `try`, so an exception ends the loop. The model treats the media query, the toast surface and all three providers as total, so no modelled operation raises.
- App.FunFactEffect: always shows a toast when AI is enabled. In the source, a successful assistant reply whose JSON has an empty `choices` list, no `message` or no `content` raises IndexError, TypeError or KeyError at src/utils/ai_assistant.py:43. That line sits outside the `requests.RequestException` handler, so the fun-fact action then ends with no toast. `MainApp.MakeAiFunFactToast` inherits this.
- App.SendEffect: the same escape ends a Send press with a non-empty question with no toast, although the model shows one. `MainApp.OnAskButtonClick` inherits this.
- Logging and the environment reads are left out. The three AI settings are constructor parameters. The timeouts only matter inside the providers.
- Toast fields the application never varies are left out: group, duration, attribution text, and the application name handed to the toaster. An image is kept as its path.
- Activate does not check that the toast was displayed. The real surface only delivers presses for toasts it shows.

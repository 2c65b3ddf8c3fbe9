/**
 * The notification orchestration: the builders that turn a detected track
 * into an initial toast with three buttons, route its button presses to the
 * lyrics, fun-fact and ask-a-question follow-ups, and turn every provider
 * failure into a uniform two-line error toast.
 *
 * The cover-art, lyrics and assistant providers are not modelled: each call
 * receives the provider's answer as a parameter, and the application keeps a
 * ghost log of the requests it made, so that "no call" and "exactly one call"
 * can be stated.
 */
module App {
  import opened Common
  import opened PyText
  import opened Toasts
  import opened Media

  const AppName := "MusicToasts"

  /** What every provider answers: an optional status code and an optional payload. */
  datatype ProviderResult = ProviderResult(status: Option<int>, payload: Option<string>)

  /** The uniform failure test: status other than 200, or a missing or empty payload. */
  function Failed(res: ProviderResult): (failed: bool)
    ensures res.status.None? || res.payload.None? ==> failed
    ensures !failed ==> res.status == Some(200) && res.payload.Some? && res.payload.value != ""
    ensures res.status == Some(200) && res.payload.Some? && res.payload.value != "" ==> !failed
  {
    res.status != Some(200) || !Truthy(res.payload)
  }

  /** AI features need all three settings (endpoint, key, model) present and non-empty. */
  function AiFeaturesEnabled(endpoint: Option<string>, apiKey: Option<string>, model: Option<string>): (enabled: bool)
    ensures enabled <==> endpoint.Some? && endpoint.value != "" && apiKey.Some? && apiKey.value != ""
                         && model.Some? && model.value != ""
  {
    Truthy(endpoint) && Truthy(apiKey) && Truthy(model)
  }

  // ---------------------------------------------------------------- messages

  const ErrorHeader := "Error! :( "
  const AiDisabledMessage := "AI features are not enabled. Please configure the environment variables "
                             + "(MT_AI_ENDPOINT_URL, MT_AI_API_KEY, MT_AI_MODEL) to use AI features."
  const LyricsFailure := "Could not fetch lyrics."
  const FunFactFailure := "Could not get fun fact from AI assistant."
  const AnswerFailure := "Could not get response from AI assistant."

  /** `str(status) if status else ""`: absent and 0 both give the empty string. */
  function StatusText(status: Option<int>): (r: string)
    ensures r == "" <==> status.None? || status.value == 0
    ensures r != "" ==> r == IntToString(status.value)
  {
    if status.Some? && status.value != 0 then IntToString(status.value) else ""
  }

  /** `response if response else ""`. */
  function PayloadText(payload: Option<string>): (r: string)
    ensures Truthy(payload) ==> r == payload.value
    ensures !Truthy(payload) ==> r == ""
  {
    if payload.Some? then payload.value else ""
  }

  /** The error-toast message of a failed call: the prefix, the status and the payload, space-joined. */
  function FailureMessage(prefix: string, res: ProviderResult): (msg: string)
    ensures |msg| == |prefix| + 2 + |StatusText(res.status)| + |PayloadText(res.payload)|
    ensures msg[..|prefix| + 1] == prefix + " "
    ensures msg[|msg| - |PayloadText(res.payload)|..] == PayloadText(res.payload)
  {
    JoinThree(" ", prefix, StatusText(res.status), PayloadText(res.payload));
    Join(" ", [prefix, StatusText(res.status), PayloadText(res.payload)])
  }

  /**
   * The join always puts exactly two separating spaces, even around an empty
   * part: the message is the prefix, a space, the status text, a space and
   * the payload text.
   */
  lemma FailureMessageLayout(prefix: string, res: ProviderResult)
    ensures FailureMessage(prefix, res) == prefix + " " + StatusText(res.status) + " " + PayloadText(res.payload)
    ensures |FailureMessage(prefix, res)| == |prefix| + 2 + |StatusText(res.status)| + |PayloadText(res.payload)|
  {
    JoinThree(" ", prefix, StatusText(res.status), PayloadText(res.payload));
  }

  /** Without a status the message has a double space between the prefix and the payload. */
  lemma FailureMessageWithoutStatus(prefix: string, res: ProviderResult)
    requires res.status.None?
    ensures FailureMessage(prefix, res) == prefix + "  " + PayloadText(res.payload)
  {
    FailureMessageLayout(prefix, res);
  }

  /** A lyrics lookup that found nothing (reported without a status) gives a message with a double space. */
  lemma LyricsNotFoundMessage()
    ensures FailureMessage(LyricsFailure,
                           ProviderResult(None, Some("Could not find the lyrics for: One More Time by Daft Punk.")))
            == "Could not fetch lyrics." + "  " + "Could not find the lyrics for: One More Time by Daft Punk."
  {
    var notFound := "Could not find the lyrics for: One More Time by Daft Punk.";
    FailureMessageWithoutStatus(LyricsFailure, ProviderResult(None, Some(notFound)));
    assert PayloadText(Some(notFound)) == notFound;
  }

  /** A failure with a status carries the status's decimal digits between the prefix and the payload. */
  lemma FailureMessageShowsStatus(prefix: string, code: int, payload: Option<string>)
    requires code != 0
    ensures FailureMessage(prefix, ProviderResult(Some(code), payload))
            == prefix + " " + IntToString(code) + " " + PayloadText(payload)
  {
    FailureMessageLayout(prefix, ProviderResult(Some(code), payload));
  }

  // ----------------------------------------------------------------- prompts

  const FunFactOpening := "Tell me a fun fact about this song - '"
  const FunFactMiddle := "' by '"
  const FunFactClosing := "'. Make it interesting and surprising!"

  /** The fun-fact prompt; the title and the artist are cut to 100 characters each. */
  function FunFactPrompt(artist: string, title: string): (p: string)
    ensures |p| <= |FunFactOpening| + |FunFactMiddle| + |FunFactClosing| + 200
    ensures |title| <= 100 && |artist| <= 100
            ==> p == FunFactOpening + title + FunFactMiddle + artist + FunFactClosing
  {
    FunFactOpening + Take(title, 100) + FunFactMiddle + Take(artist, 100) + FunFactClosing
  }

  /** Only the first 100 characters of the title and of the artist reach the prompt. */
  lemma FunFactPromptSeesFirst100(artist: string, title: string)
    ensures FunFactPrompt(artist, title) == FunFactPrompt(Take(artist, 100), Take(title, 100))
  {
    TakeIdempotent(artist, 100);
    TakeIdempotent(title, 100);
  }

  /** The question prompt: a lead naming the track, then the user's question, neither truncated. */
  function AskPrompt(artist: string, title: string, question: string): (p: string)
    ensures |p| == 25 + |title| + |artist| + |question|
    ensures p[|p| - |question|..] == question
    ensures p[..19] == "Regarding the song "
    ensures p[19..19 + |title|] == title && p[19 + |title|..23 + |title|] == " by "
    ensures p[23 + |title|..23 + |title| + |artist|] == artist
    ensures p[23 + |title| + |artist|..25 + |title| + |artist|] == ". "
  {
    "Regarding the song " + title + " by " + artist + ". " + question
  }

  // ---------------------------------------------------------------- dispatch

  /** The follow-ups the initial toast offers. */
  datatype FollowUp = ShowLyrics | FunFact | AskQuestion

  /** The argument string of the button for a follow-up. */
  function FollowUpTag(a: FollowUp): string
  {
    match a
    case ShowLyrics => "button_Lyrics"
    case FunFact => "button_FunFact"
    case AskQuestion => "button_AskQuestion"
  }

  /** The follow-up a button argument of the initial toast selects; any other argument selects none. */
  function Dispatch(tag: string): (r: Option<FollowUp>)
    ensures r.Some? ==> FollowUpTag(r.value) == tag
    ensures r.None? <==> forall a :: FollowUpTag(a) != tag
  {
    if tag == "button_Lyrics" then Some(ShowLyrics)
    else if tag == "button_FunFact" then Some(FunFact)
    else if tag == "button_AskQuestion" then Some(AskQuestion)
    else None
  }

  /** Each follow-up's own tag selects it. */
  lemma DispatchFollowUpTag(a: FollowUp)
    ensures Dispatch(FollowUpTag(a)) == Some(a)
  {
  }

  const InitialButtons := [
    Button("Fun Fact", "button_FunFact"),
    Button("Ask a Question", "button_AskQuestion"),
    Button("Show Lyrics", "button_Lyrics")
  ]

  /** The three buttons of the initial toast select fun fact, ask, and lyrics, in that order. */
  lemma InitialButtonsSelect()
    ensures |InitialButtons| == 3
    ensures Dispatch(InitialButtons[0].tag) == Some(FunFact)
    ensures Dispatch(InitialButtons[1].tag) == Some(AskQuestion)
    ensures Dispatch(InitialButtons[2].tag) == Some(ShowLyrics)
  {
  }

  const SendTag := "button_Send"
  const QuestionInputId := "question"

  /** The question a press on the ask toast sends: only for Send, and only when the `question` input is non-empty. */
  function SentQuestion(tag: string, inputs: map<string, string>): (q: Option<string>)
    ensures q.Some? <==> tag == SendTag && QuestionInputId in inputs && inputs[QuestionInputId] != ""
    ensures q.Some? ==> q.value == inputs[QuestionInputId]
  {
    if tag == SendTag then
      var question := if QuestionInputId in inputs then inputs[QuestionInputId] else "";
      if question != "" then Some(question) else None
    else None
  }

  // ------------------------------------------------------------------ toasts

  /** A toast with only text. */
  function TextToast(lines: seq<string>): Toast
  {
    Toast(lines, [], [], [], NoCallback)
  }

  /** The error toast: the header line and the message, nothing else. */
  function ErrorToast(msg: string): (t: Toast)
    ensures t.text == [ErrorHeader, msg] && t.images == [] && t.buttons == [] && t.inputs == []
    ensures t.callback.NoCallback?
  {
    TextToast([ErrorHeader, msg])
  }

  /** The toast announcing a new track; it has an image exactly when the cover-art answer is a non-empty path. */
  function InitialToast(artist: string, title: string, coverArt: Option<string>): (t: Toast)
    ensures t.text == ["Now Playing:", title, "by " + artist]
    ensures t.buttons == InitialButtons && t.inputs == []
    ensures t.images == (if Truthy(coverArt) then [coverArt.value] else [])
    ensures t.callback == InitialDispatch(artist, title)
  {
    Toast(["Now Playing:", title, "by " + artist],
          if Truthy(coverArt) then [coverArt.value] else [],
          InitialButtons, [], InitialDispatch(artist, title))
  }

  const AskLines := ["Ask a question:", "Type your question below and click 'Send'."]
  const QuestionInput := TextInput(QuestionInputId, "Your question:", "")
  const SendButton := Button("Send", SendTag)

  /** The ask-a-question toast: two lines, one text box, one Send button, and the ask handler for the track. */
  function AskToast(artist: string, title: string): (t: Toast)
    ensures |t.text| == 2 && t.images == []
    ensures t.inputs == [TextInput("question", "Your question:", "")]
    ensures t.buttons == [Button("Send", "button_Send")]
    ensures t.callback == AskDispatch(artist, title)
  {
    Toast(AskLines, [], [SendButton], [QuestionInput], AskDispatch(artist, title))
  }

  /** The header of the lyrics toast: it names the title, then the artist, and ends with a colon. */
  function LyricsHeader(artist: string, title: string): (h: string)
    ensures |h| == 29 + |title| + |artist|
    ensures h[..24] == "Here are the lyrics for " && h[24..24 + |title|] == title
    ensures h[24 + |title|..28 + |title|] == " by "
    ensures h[|h| - 1 - |artist|..] == artist + ":"
  {
    "Here are the lyrics for " + title + " by " + artist + ":"
  }

  /** The lines of the lyrics toast: the error lines on failure, else the header and the lyrics. */
  function LyricsLines(artist: string, title: string, res: ProviderResult): (lines: seq<string>)
    ensures |lines| == 2
    ensures Failed(res) <==> lines[0] == ErrorHeader
    ensures Failed(res) ==> lines[1] == FailureMessage(LyricsFailure, res)
    ensures !Failed(res) ==> lines[1] == res.payload.value && lines[0] == LyricsHeader(artist, title)
  {
    if Failed(res) then [ErrorHeader, FailureMessage(LyricsFailure, res)]
    else
      assert LyricsHeader(artist, title)[0] == 'H';
      [LyricsHeader(artist, title), res.payload.value]
  }

  /** The lines of the fun-fact toast: the error lines on failure, else "Fun fact!" and the response. */
  function FunFactLines(res: ProviderResult): (lines: seq<string>)
    ensures |lines| == 2
    ensures Failed(res) <==> lines[0] == ErrorHeader
    ensures Failed(res) ==> lines[1] == FailureMessage(FunFactFailure, res)
    ensures !Failed(res) ==> lines == ["Fun fact!", res.payload.value]
  {
    if Failed(res) then [ErrorHeader, FailureMessage(FunFactFailure, res)] else ["Fun fact!", res.payload.value]
  }

  /** The lines of the answer toast: the error lines on failure, else the response alone, with no header. */
  function AnswerLines(res: ProviderResult): (lines: seq<string>)
    ensures Failed(res) <==> |lines| == 2
    ensures Failed(res) ==> lines == [ErrorHeader, FailureMessage(AnswerFailure, res)]
    ensures !Failed(res) ==> lines == [res.payload.value]
  {
    if Failed(res) then [ErrorHeader, FailureMessage(AnswerFailure, res)] else [res.payload.value]
  }

  /** A successful fun-fact answer is shown under the "Fun fact!" header. */
  lemma FunFactSuccessLines()
    ensures FunFactLines(ProviderResult(Some(200), Some("Fact text"))) == ["Fun fact!", "Fact text"]
  {
  }

  // ----------------------------------------------------------------- effects

  /** What one action does: the toast it builds and shows, and the provider requests it makes, in order. */
  datatype Effect = Effect(toast: Option<Toast>, prompts: seq<string>, lyrics: seq<Track>)

  const NoEffect := Effect(None, [], [])

  function LyricsEffect(artist: string, title: string, res: ProviderResult): (e: Effect)
    ensures e.lyrics == [Track(artist, title)] && e.prompts == []
    ensures e.toast.Some? && e.toast.value.buttons == [] && e.toast.value.inputs == []
  {
    Effect(Some(TextToast(LyricsLines(artist, title, res))), [], [Track(artist, title)])
  }

  /** The fun-fact action: with AI disabled, the fixed error toast and no assistant call. */
  function FunFactEffect(aiEnabled: bool, artist: string, title: string, res: ProviderResult): (e: Effect)
    ensures e.lyrics == [] && e.toast.Some? && |e.toast.value.text| == 2
    ensures e.prompts == (if aiEnabled then [FunFactPrompt(artist, title)] else [])
    ensures !aiEnabled ==> e.toast.value == ErrorToast(AiDisabledMessage)
  {
    if !aiEnabled then Effect(Some(ErrorToast(AiDisabledMessage)), [], [])
    else Effect(Some(TextToast(FunFactLines(res))), [FunFactPrompt(artist, title)], [])
  }

  /** The ask action: no provider call at all; with AI disabled, the fixed error toast. */
  function AskEffect(aiEnabled: bool, artist: string, title: string): (e: Effect)
    ensures e.prompts == [] && e.lyrics == [] && e.toast.Some?
    ensures e.toast.value == (if aiEnabled then AskToast(artist, title) else ErrorToast(AiDisabledMessage))
  {
    if !aiEnabled then Effect(Some(ErrorToast(AiDisabledMessage)), [], [])
    else Effect(Some(AskToast(artist, title)), [], [])
  }

  /** The answer toast for a response text. */
  function ResponseEffect(response: string): (e: Effect)
    ensures e.prompts == [] && e.lyrics == [] && e.toast.Some?
    ensures e.toast.value.images == [] && e.toast.value.buttons == [] && e.toast.value.inputs == []
    ensures e.toast.value.callback.NoCallback?
    ensures response != "" ==> e.toast.value.text == AnswerLines(ProviderResult(Some(200), Some(response)))
  {
    Effect(Some(TextToast([response])), [], [])
  }

  /** A press on the ask toast: exactly one assistant call, and one toast, iff Send with a non-empty question. */
  function SendEffect(artist: string, title: string, tag: string, inputs: map<string, string>, res: ProviderResult)
    : (e: Effect)
    ensures e.lyrics == []
    ensures |e.prompts| <= 1 && (e.toast.Some? <==> |e.prompts| == 1)
    ensures |e.prompts| == 1 <==> tag == SendTag && QuestionInputId in inputs && inputs[QuestionInputId] != ""
    ensures |e.prompts| == 1 ==>
              e.prompts[0] == AskPrompt(artist, title, inputs[QuestionInputId]) && e.toast.value.text == AnswerLines(res)
  {
    match SentQuestion(tag, inputs)
    case None => NoEffect
    case Some(q) => Effect(Some(TextToast(AnswerLines(res))), [AskPrompt(artist, title, q)], [])
  }

  /** A press on the initial toast; a tag that selects no follow-up does nothing. */
  function InitialClickEffect(aiEnabled: bool, artist: string, title: string, tag: string, res: ProviderResult)
    : (e: Effect)
    ensures e.toast.None? <==> Dispatch(tag).None?
    ensures e.toast.None? ==> e == NoEffect
    ensures e.lyrics != [] <==> tag == "button_Lyrics"
    ensures e.prompts != [] <==> tag == "button_FunFact" && aiEnabled
  {
    match Dispatch(tag)
    case None => NoEffect
    case Some(ShowLyrics) => LyricsEffect(artist, title, res)
    case Some(FunFact) => FunFactEffect(aiEnabled, artist, title, res)
    case Some(AskQuestion) => AskEffect(aiEnabled, artist, title)
  }

  /** An activation of a toast, routed by the handler bound to it. */
  function ActivationEffect(cb: CallbackKind, aiEnabled: bool, tag: string, inputs: map<string, string>,
                            res: ProviderResult): (e: Effect)
    ensures cb.NoCallback? ==> e == NoEffect
    ensures |e.prompts| <= 1 && |e.lyrics| <= 1
  {
    match cb
    case NoCallback => NoEffect
    case InitialDispatch(artist, title) => InitialClickEffect(aiEnabled, artist, title, tag, res)
    case AskDispatch(artist, title) => SendEffect(artist, title, tag, inputs, res)
  }

  /**
   * With AI disabled, activating the initial toast or a toast without a
   * handler never calls the assistant. Ask toasts exist only with AI enabled
   * (see `MainApp.Valid`), so no activation calls it at all.
   */
  lemma NoAssistantCallWithoutAi(cb: CallbackKind, tag: string, inputs: map<string, string>, res: ProviderResult)
    requires !cb.AskDispatch?
    ensures ActivationEffect(cb, false, tag, inputs, res).prompts == []
  {
  }

  /** No toast in `toasts` carries the ask handler. */
  predicate NoAskHandler(toasts: map<int, Toast>)
  {
    forall k :: k in toasts ==> !toasts[k].callback.AskDispatch?
  }

  /** Adding a toast without the ask handler keeps `NoAskHandler`. */
  lemma NoAskHandlerAdded(toasts: map<int, Toast>, id: int, t: Toast)
    requires NoAskHandler(toasts) && !t.callback.AskDispatch?
    ensures NoAskHandler(toasts[id := t])
  {
  }

  /** The application: the registry, the listener, the AI switch, and the provider requests made so far. */
  class MainApp {
    const tm: ToastManager
    const listener: MediaListener
    const aiEnabled: bool
    ghost var assistantPrompts: seq<string>
    ghost var lyricsRequests: seq<Track>
    ghost var coverArtRequests: seq<Track>

    /** The registry is well formed, and with AI disabled no toast carries the ask handler. */
    ghost predicate Valid()
      reads tm
    {
      tm.Valid()
      && (!aiEnabled ==> NoAskHandler(tm.toasts))
    }

    /**
     * The new state is the old one with `e` performed: its requests logged,
     * its toast, if any, published, and no cover art asked for.
     */
    ghost predicate Performed(r0: Registry, prompts0: seq<string>, lyrics0: seq<Track>, coverArt0: seq<Track>,
                              e: Effect, created: Option<int>)
      reads this, tm
    {
      assistantPrompts == prompts0 + e.prompts && lyricsRequests == lyrics0 + e.lyrics
      && coverArtRequests == coverArt0
      && match e.toast
         case None => created.None? && tm.Model() == r0
         case Some(t) => created == Some(r0.nextId) && tm.Model() == Published(r0, t)
    }

    constructor (endpoint: Option<string>, apiKey: Option<string>, model: Option<string>)
      ensures Valid() && fresh(tm) && fresh(listener)
      ensures aiEnabled == AiFeaturesEnabled(endpoint, apiKey, model)
      ensures tm.appName == AppName && tm.Model() == Fresh()
      ensures listener.currentTrack == None && listener.hasCallback
      ensures assistantPrompts == [] && lyricsRequests == [] && coverArtRequests == []
    {
      tm := new ToastManager(AppName);
      aiEnabled := AiFeaturesEnabled(endpoint, apiKey, model);
      listener := new MediaListener();
      assistantPrompts, lyricsRequests, coverArtRequests := [], [], [];
      new;
      listener.SetOnNewTrackCallback(true);
    }

    /** Builds and shows the initial toast; `coverArt` is the cover-art provider's answer. */
    method MakeInitialToast(artist: string, title: string, coverArt: Option<string>) returns (id: int)
      requires Valid()
      modifies this, tm
      ensures Valid()
      ensures id == old(tm.nextId) && id !in old(tm.toasts)
      ensures tm.Model() == Published(old(tm.Model()), InitialToast(artist, title, coverArt))
      ensures coverArtRequests == old(coverArtRequests) + [Track(artist, title)]
      ensures assistantPrompts == old(assistantPrompts) && lyricsRequests == old(lyricsRequests)
    {
      var lines := ["Now Playing:", title, "by " + artist];
      id := tm.CreateNewToast();
      tm.AddTextToToast(id, lines);
      assert tm.toasts == old(tm.toasts)[id := Toast(lines, [], [], [], NoCallback)];
      tm.AddButtonToToast(id, "Fun Fact", "button_FunFact");
      assert [] + [InitialButtons[0]] == InitialButtons[..1];
      assert tm.toasts == old(tm.toasts)[id := Toast(lines, [], InitialButtons[..1], [], NoCallback)];
      tm.AddButtonToToast(id, "Ask a Question", "button_AskQuestion");
      assert InitialButtons[..1] + [InitialButtons[1]] == InitialButtons[..2];
      assert tm.toasts == old(tm.toasts)[id := Toast(lines, [], InitialButtons[..2], [], NoCallback)];
      tm.AddButtonToToast(id, "Show Lyrics", "button_Lyrics");
      assert InitialButtons[..2] + [InitialButtons[2]] == InitialButtons;
      assert tm.toasts == old(tm.toasts)[id := Toast(lines, [], InitialButtons, [], NoCallback)];
      coverArtRequests := coverArtRequests + [Track(artist, title)];
      if Truthy(coverArt) {
        tm.AddImageToToast(id, coverArt.value);
        assert [] + [coverArt.value] == [coverArt.value];
      }
      assert tm.toasts == old(tm.toasts)[id := InitialToast(artist, title, coverArt).(callback := NoCallback)];
      tm.SetToastActivatedCallback(id, InitialDispatch(artist, title));
      assert tm.toasts == old(tm.toasts)[id := InitialToast(artist, title, coverArt)];
      tm.DisplayToast(id);
      if !aiEnabled {
        NoAskHandlerAdded(old(tm.toasts), id, InitialToast(artist, title, coverArt));
      }
    }

    /** Builds and shows a toast with only `lines`. */
    method MakeTextToast(lines: seq<string>) returns (id: int)
      requires Valid()
      modifies tm
      ensures Valid()
      ensures id == old(tm.nextId) && id !in old(tm.toasts)
      ensures tm.Model() == Published(old(tm.Model()), TextToast(lines))
    {
      id := tm.CreateNewToast();
      tm.AddTextToToast(id, lines);
      assert tm.toasts == old(tm.toasts)[id := TextToast(lines)];
      tm.DisplayToast(id);
    }

    method MakeErrorToast(msg: string) returns (id: int)
      requires Valid()
      modifies tm
      ensures Valid()
      ensures Performed(old(tm.Model()), assistantPrompts, lyricsRequests, coverArtRequests,
                        Effect(Some(ErrorToast(msg)), [], []), Some(id))
    {
      id := MakeTextToast([ErrorHeader, msg]);
    }

    /** The lyrics follow-up; `reply` is the lyrics provider's answer. */
    method MakeLyricsToast(artist: string, title: string, reply: ProviderResult) returns (id: int)
      requires Valid()
      modifies this, tm
      ensures Valid()
      ensures Performed(old(tm.Model()), old(assistantPrompts), old(lyricsRequests), old(coverArtRequests),
                        LyricsEffect(artist, title, reply), Some(id))
    {
      lyricsRequests := lyricsRequests + [Track(artist, title)];
      if reply.status != Some(200) || !Truthy(reply.payload) {
        var msg := Join(" ", [LyricsFailure, StatusText(reply.status), PayloadText(reply.payload)]);
        id := MakeErrorToast(msg);
        return;
      }
      id := MakeTextToast([LyricsHeader(artist, title), reply.payload.value]);
    }

    /** The fun-fact follow-up; `reply` is the assistant's answer, consulted only when AI is enabled. */
    method MakeAiFunFactToast(artist: string, title: string, reply: ProviderResult) returns (id: int)
      requires Valid()
      modifies this, tm
      ensures Valid()
      ensures Performed(old(tm.Model()), old(assistantPrompts), old(lyricsRequests), old(coverArtRequests),
                        FunFactEffect(aiEnabled, artist, title, reply), Some(id))
    {
      if !aiEnabled {
        id := MakeErrorToast(AiDisabledMessage);
        return;
      }
      assistantPrompts := assistantPrompts + [FunFactPrompt(artist, title)];
      if reply.status != Some(200) || !Truthy(reply.payload) {
        var msg := Join(" ", [FunFactFailure, StatusText(reply.status), PayloadText(reply.payload)]);
        id := MakeErrorToast(msg);
        return;
      }
      id := MakeTextToast(["Fun fact!", reply.payload.value]);
    }

    /** The ask-a-question follow-up: a toast with a question box and a Send button. */
    method MakeAskAiToast(artist: string, title: string) returns (id: int)
      requires Valid()
      modifies tm
      ensures Valid()
      ensures Performed(old(tm.Model()), assistantPrompts, lyricsRequests, coverArtRequests,
                        AskEffect(aiEnabled, artist, title), Some(id))
    {
      if !aiEnabled {
        id := MakeErrorToast(AiDisabledMessage);
        return;
      }
      id := tm.CreateNewToast();
      tm.AddTextToToast(id, AskLines);
      assert tm.toasts == old(tm.toasts)[id := Toast(AskLines, [], [], [], NoCallback)];
      tm.AddInputToToast(id, QuestionInputId, "Your question:", "");
      assert [] + [QuestionInput] == [QuestionInput];
      assert tm.toasts == old(tm.toasts)[id := Toast(AskLines, [], [], [QuestionInput], NoCallback)];
      tm.AddButtonToToast(id, "Send", SendTag);
      assert [] + [SendButton] == [SendButton];
      assert tm.toasts == old(tm.toasts)[id := Toast(AskLines, [], [SendButton], [QuestionInput], NoCallback)];
      tm.SetToastActivatedCallback(id, AskDispatch(artist, title));
      assert tm.toasts == old(tm.toasts)[id := AskToast(artist, title)];
      tm.DisplayToast(id);
    }

    /** Shows the assistant's response as a single-line toast. */
    method MakeAiResponseToast(response: string) returns (id: int)
      requires Valid()
      modifies tm
      ensures Valid()
      ensures Performed(old(tm.Model()), assistantPrompts, lyricsRequests, coverArtRequests,
                        ResponseEffect(response), Some(id))
    {
      id := MakeTextToast([response]);
    }

    /** The handler of the ask toast for `artist`/`title`; `reply` is the assistant's answer if it is asked. */
    method OnAskButtonClick(artist: string, title: string, tag: string, inputs: map<string, string>,
                            reply: ProviderResult) returns (created: Option<int>)
      requires Valid()
      modifies this, tm
      ensures Valid()
      ensures Performed(old(tm.Model()), old(assistantPrompts), old(lyricsRequests), old(coverArtRequests),
                        SendEffect(artist, title, tag, inputs, reply), created)
    {
      created := None;
      if tag == SendTag {
        var question := if QuestionInputId in inputs then inputs[QuestionInputId] else "";
        if question != "" {
          assistantPrompts := assistantPrompts + [AskPrompt(artist, title, question)];
          var id;
          if reply.status != Some(200) || !Truthy(reply.payload) {
            var msg := Join(" ", [AnswerFailure, StatusText(reply.status), PayloadText(reply.payload)]);
            id := MakeErrorToast(msg);
          } else {
            id := MakeAiResponseToast(reply.payload.value);
          }
          created := Some(id);
        }
      }
    }

    /** The handler of the initial toast for `artist`/`title`. */
    method OnInitialToastClick(artist: string, title: string, tag: string, reply: ProviderResult)
      returns (created: Option<int>)
      requires Valid()
      modifies this, tm
      ensures Valid()
      ensures Performed(old(tm.Model()), old(assistantPrompts), old(lyricsRequests), old(coverArtRequests),
                        InitialClickEffect(aiEnabled, artist, title, tag, reply), created)
    {
      created := None;
      var id;
      if tag == "button_Lyrics" {
        id := MakeLyricsToast(artist, title, reply);
        created := Some(id);
      } else if tag == "button_FunFact" {
        id := MakeAiFunFactToast(artist, title, reply);
        created := Some(id);
      } else if tag == "button_AskQuestion" {
        id := MakeAskAiToast(artist, title);
        created := Some(id);
      }
    }

    /**
     * The surface reports a press on toast `id` with argument `tag` and the
     * text-box values `inputs`; the handler bound to the toast runs.
     */
    method Activate(id: int, tag: string, inputs: map<string, string>, reply: ProviderResult)
      returns (created: Option<int>)
      requires Valid()
      modifies this, tm
      ensures Valid()
      ensures !aiEnabled ==> assistantPrompts == old(assistantPrompts)
      ensures id !in old(tm.toasts) ==>
        Performed(old(tm.Model()), old(assistantPrompts), old(lyricsRequests), old(coverArtRequests), NoEffect, created)
      ensures id in old(tm.toasts) ==>
        Performed(old(tm.Model()), old(assistantPrompts), old(lyricsRequests), old(coverArtRequests),
                  ActivationEffect(old(tm.toasts[id].callback), aiEnabled, tag, inputs, reply), created)
    {
      created := None;
      if id in tm.toasts {
        match tm.toasts[id].callback
        case NoCallback =>
        case InitialDispatch(artist, title) =>
          created := OnInitialToastClick(artist, title, tag, reply);
        case AskDispatch(artist, title) =>
          created := OnAskButtonClick(artist, title, tag, inputs, reply);
      }
    }

    /** The new-track callback: build the initial toast. */
    method OnNewTrack(artist: string, title: string, coverArt: Option<string>) returns (id: int)
      requires Valid()
      modifies this, tm
      ensures Valid()
      ensures id == old(tm.nextId)
      ensures tm.Model() == Published(old(tm.Model()), InitialToast(artist, title, coverArt))
      ensures coverArtRequests == old(coverArtRequests) + [Track(artist, title)]
      ensures assistantPrompts == old(assistantPrompts) && lyricsRequests == old(lyricsRequests)
    {
      id := MakeInitialToast(artist, title, coverArt);
    }

    /**
     * One cycle of the poll loop: `polled` is the media query's answer and
     * `coverArt` the cover-art provider's answer if it is asked.
     */
    method PollOnce(polled: Option<Track>, coverArt: Option<string>) returns (created: Option<int>)
      requires Valid()
      modifies this, tm, listener
      ensures Valid()
      ensures var o := Check(old(listener.State()), polled);
        listener.State() == o.state
        && assistantPrompts == old(assistantPrompts) && lyricsRequests == old(lyricsRequests)
        && (o.fired.None? ==> created.None? && tm.Model() == old(tm.Model())
                              && coverArtRequests == old(coverArtRequests))
        && (o.fired.Some? ==> created == Some(old(tm.nextId))
                              && tm.Model() == Published(old(tm.Model()), InitialToast(o.fired.value.artist, o.fired.value.title, coverArt))
                              && coverArtRequests == old(coverArtRequests) + [o.fired.value])
    {
      created := None;
      var fired := listener.CheckNewTrack(polled);
      if fired.Some? {
        var id := OnNewTrack(fired.value.artist, fired.value.title, coverArt);
        created := Some(id);
      }
    }
  }
}

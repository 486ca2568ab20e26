/** The photo chat (components/PhotoRAGChat.tsx): the message list that
    `handleSend`, `pushAssistant` and `pushVoiceTurn` extend, the precedence
    with which a pending answer is resolved, the bubble text above the chat,
    and the sheet offset the drag and keyboard handlers move. The scan
    result, the chat API's reply and `Date.now()` are parameters. */
module PhotoChat {
  import opened Text
  import opened Sheet

  datatype Role = User | Assistant
  datatype Channel = TextChannel | VoiceChannel

  /** `ChatMessage`; an absent `pending` is false. */
  datatype ChatMessage = ChatMessage(id: string, role: Role, text: string, pending: bool, channel: Option<Channel>)

  // ---------------------------------------------------------------------
  // Message ids: `<prefix><Date.now()>`.

  function UserId(now: nat): string { "user_" + NatToString(now) }
  function BotId(now: nat): string { "bot_" + NatToString(now) }
  function UserVoiceId(now: nat): string { "user_voice_" + NatToString(now) }
  function BotVoiceId(now: nat): string { "bot_voice_" + NatToString(now) }

  /** A user id and an assistant id never coincide, whatever the clocks. */
  lemma UserAndBotIdsDiffer(m: nat, n: nat)
    ensures UserId(m) != BotId(n) && UserVoiceId(m) != BotVoiceId(n)
    ensures UserId(m) != BotVoiceId(n) && UserVoiceId(m) != BotId(n)
  {
    assert UserId(m)[0] == 'u' && BotId(n)[0] == 'b';
    assert UserVoiceId(m)[0] == 'u' && BotVoiceId(n)[0] == 'b';
  }

  /** Assistant ids taken at different milliseconds differ. */
  lemma BotIdInjective(m: nat, n: nat)
    requires BotId(m) == BotId(n)
    ensures m == n
  {
    assert NatToString(m) == BotId(m)[4..];
    assert NatToString(n) == BotId(n)[4..];
    NatToStringInjective(m, n);
  }

  // ---------------------------------------------------------------------
  // Resolving the pending assistant message: `prev.map(m => m.id === id ?
  // { ...m, pending: false, text } : m)`.

  /** Every message with the pending id becomes settled with the new text and
      keeps its id, role and channel; every other message is unchanged. */
  function ResolvePending(msgs: seq<ChatMessage>, id: string, text: string): (r: seq<ChatMessage>)
    ensures |r| == |msgs|
    ensures forall k :: 0 <= k < |msgs| && msgs[k].id == id ==>
              r[k].id == id && r[k].role == msgs[k].role && r[k].channel == msgs[k].channel &&
              !r[k].pending && r[k].text == text
    ensures forall k :: 0 <= k < |msgs| && msgs[k].id != id ==> r[k] == msgs[k]
  {
    seq(|msgs|, k requires 0 <= k < |msgs| =>
      if msgs[k].id == id then msgs[k].(pending := false, text := text) else msgs[k])
  }

  /** Resolving twice with the same text is resolving once. */
  lemma ResolvePendingIdempotent(msgs: seq<ChatMessage>, id: string, text: string)
    ensures ResolvePending(ResolvePending(msgs, id, text), id, text) == ResolvePending(msgs, id, text)
  {
  }

  /** When no earlier message carries the pending id, resolution touches
      only the freshly appended pending message: the history and the user
      message stay as they were. */
  lemma ResolveFreshPending(history: seq<ChatMessage>, user: ChatMessage, pending: ChatMessage, text: string)
    requires forall k :: 0 <= k < |history| ==> history[k].id != pending.id
    requires user.id != pending.id
    ensures ResolvePending(history + [user, pending], pending.id, text) ==
            history + [user, pending.(pending := false, text := text)]
  {
    var all := history + [user, pending];
    var r := ResolvePending(all, pending.id, text);
    assert all[|history|] == user && all[|history| + 1] == pending;
    assert r == history + [user, pending.(pending := false, text := text)];
  }

  // ---------------------------------------------------------------------
  // What the component knows about the scan.

  /** One search hit; only the artist name is read here. */
  datatype SearchHit = SearchHit(artistName: Option<string>)

  /** The search response: `decision?.is_match` (absent is false) and
      `results` (absent is empty). */
  datatype SearchResponse = SearchResponse(isMatch: bool, results: seq<SearchHit>)

  /** The `loading`, `error`, `search` and `scanId` state of the scan. */
  datatype ScanView = ScanView(loading: bool, error: Option<string>, search: Option<SearchResponse>, scanId: Option<string>)

  /** `search?.results?.[0] ?? null`. */
  function TopResult(v: ScanView): (r: Option<SearchHit>)
    ensures r.Some? <==> v.search.Some? && v.search.value.results != []
    ensures r.Some? ==> r.value == v.search.value.results[0]
  {
    if v.search.Some? && v.search.value.results != [] then Some(v.search.value.results[0]) else None
  }

  /** `!!search?.decision?.is_match`. */
  predicate IsMatch(v: ScanView) {
    v.search.Some? && v.search.value.isMatch
  }

  /** `topResult?.artist_name ?? null`. */
  function TopArtistName(v: ScanView): Option<string> {
    if TopResult(v).Some? then TopResult(v).value.artistName else None
  }

  // ---------------------------------------------------------------------
  // Resolution precedence in `handleSend`.

  const ScanFirst := "Please scan the artwork first before asking a question."
  const Rescan := "Please rescan the artwork."
  const MissingScanIdError := "Missing scan id. Please rescan the artwork."
  /** `—`, `…` and `’` as the file spells them: their UTF-8 bytes read as
      Windows-1252 characters. */
  const Dash := "\U{E2}\U{20AC}\U{201D}"
  const Ellipsis := "\U{E2}\U{20AC}\U{A6}"
  const Apostrophe := "\U{E2}\U{20AC}\U{2122}"

  const Sorry := "Sorry " + Dash + " I ran into a problem."

  /** Where a non-blank question goes: nowhere without a matched top result,
      nowhere without a scan id, otherwise to the chat API with that id. */
  datatype Route = NotScanned | MissingScanId | Ask(scanId: string)

  function RouteOf(v: ScanView): (r: Route)
    ensures r.NotScanned? <==> !IsMatch(v) || TopResult(v).None?
    ensures r.MissingScanId? <==> IsMatch(v) && TopResult(v).Some? && !Truthy(v.scanId)
    ensures r.Ask? <==> IsMatch(v) && TopResult(v).Some? && Truthy(v.scanId)
    ensures r.Ask? ==> r.scanId == v.scanId.value && r.scanId != []
  {
    if !IsMatch(v) || TopResult(v).None? then NotScanned
    else if !Truthy(v.scanId) then MissingScanId
    else Ask(v.scanId.value)
  }

  /** How `postChat` settled: with an answer, or by throwing with a message. */
  datatype Reply = Answered(answer: string) | Threw(message: string)

  /** What `handleSend` did before its await. */
  datatype SendStart = Ignored | SettledLocally | Asking(pendingId: string, question: string, scanId: string)

  function UserMessage(now: nat, text: string): ChatMessage {
    ChatMessage(UserId(now), User, text, false, None)
  }

  function PendingMessage(now: nat): ChatMessage {
    ChatMessage(BotId(now), Assistant, "", true, None)
  }

  /** The list once `handleSend` has appended its two messages; the two ids
      come from two separate clock readings. */
  function Added(history: seq<ChatMessage>, userNow: nat, botNow: nat, question: string): seq<ChatMessage> {
    history + [UserMessage(userNow, question), PendingMessage(botNow)]
  }

  /** The text `handleSend` will send: the argument if one is given (even an
      empty one), else the input box, trimmed. */
  function ToSend(msg: Option<string>, input: string): string {
    Trim(if msg.Some? then msg.value else input)
  }

  // ---------------------------------------------------------------------
  // The bubble above the chat.

  const Analyzing := "Analyzing your photo" + Ellipsis
  const CouldNotAnalyze := "Hmm, I couldn" + Apostrophe + "t analyze that photo. Retake or tap Retry."
  const CouldNotIdentify := "I couldn" + Apostrophe + "t identify this artwork. Please try scanning once more or we may do have information on this."
  const AskAboutIt := "What would you like to know about it?"

  function ArtistGreeting(name: string): (r: string)
    ensures |r| > 0 && r[0] == 'T'
  {
    "This is an artwork by " + name + ". What would you like to know more about it?"
  }

  /** The first condition that holds picks the bubble: loading, then an
      error, then a match with a named artist, then any search result, then
      the default question. Each text is produced exactly when its
      condition is the first to hold. */
  function BubbleText(v: ScanView): (r: string)
    ensures r != []
    ensures r == Analyzing <==> v.loading
    ensures r == CouldNotAnalyze <==> !v.loading && Truthy(v.error)
    ensures r[0] == 'T' <==> !v.loading && !Truthy(v.error) && IsMatch(v) && Truthy(TopArtistName(v))
    ensures r[0] == 'T' ==> r == ArtistGreeting(TopArtistName(v).value)
    ensures r == CouldNotIdentify <==>
              !v.loading && !Truthy(v.error) && !(IsMatch(v) && Truthy(TopArtistName(v))) && v.search.Some?
    ensures r == AskAboutIt <==>
              !v.loading && !Truthy(v.error) && !(IsMatch(v) && Truthy(TopArtistName(v))) && v.search.None?
  {
    assert Analyzing[0] == 'A' && CouldNotAnalyze[0] == 'H' && CouldNotIdentify[0] == 'I' && AskAboutIt[0] == 'W';
    if v.loading then Analyzing
    else if Truthy(v.error) then CouldNotAnalyze
    else if IsMatch(v) && Truthy(TopArtistName(v)) then ArtistGreeting(TopArtistName(v).value)
    else if v.search.Some? then CouldNotIdentify
    else AskAboutIt
  }

  /** `isMatch && !loading && !error`. */
  predicate ShowChatControls(v: ScanView) {
    IsMatch(v) && !v.loading && !Truthy(v.error)
  }

  /** Whenever the chat controls show, the bubble names the artist or says
      the artwork was not identified; it never shows the loading or error
      text. */
  lemma ControlsShowIdentificationBubble(v: ScanView)
    requires ShowChatControls(v)
    ensures BubbleText(v) == CouldNotIdentify || BubbleText(v)[0] == 'T'
    ensures Truthy(TopArtistName(v)) ==> BubbleText(v) == ArtistGreeting(TopArtistName(v).value)
  {
  }

  // ---------------------------------------------------------------------
  // A voice turn: `pushVoiceTurn(transcript, answer)`.

  /** The voice-tagged user message for an already trimmed transcript. */
  function VoiceUser(now: nat, spoken: string): ChatMessage {
    ChatMessage(UserVoiceId(now), User, spoken, false, Some(VoiceChannel))
  }

  /** The voice-tagged assistant message for an already trimmed answer; its
      id is taken one millisecond after the clock reading. */
  function VoiceBot(now: nat, reply: string): ChatMessage {
    ChatMessage(BotVoiceId(now + 1), Assistant, reply, false, Some(VoiceChannel))
  }

  /** The messages for trimmed texts: each one that is not empty. */
  function TurnOf(spoken: string, reply: string, userNow: nat, botNow: nat): seq<ChatMessage> {
    (if spoken == [] then [] else [VoiceUser(userNow, spoken)]) +
    (if reply == [] then [] else [VoiceBot(botNow, reply)])
  }

  /** The messages a voice turn adds: the trimmed transcript if that is not
      empty, then the trimmed answer if that is not empty. */
  function VoiceTurn(transcript: string, answer: string, userNow: nat, botNow: nat): seq<ChatMessage> {
    TurnOf(Trim(transcript), Trim(answer), userNow, botNow)
  }

  lemma AppendAssociates(a: seq<ChatMessage>, b: seq<ChatMessage>, c: seq<ChatMessage>)
    ensures (a + b) + c == a + (b + c)
  {
  }

  /** A voice-tagged, settled message with non-empty text. */
  predicate CleanVoiceMessage(m: ChatMessage) {
    m.channel == Some(VoiceChannel) && !m.pending && m.text != []
  }

  lemma TurnOfShape(spoken: string, reply: string, userNow: nat, botNow: nat)
    ensures var t := TurnOf(spoken, reply, userNow, botNow);
            |t| == (if spoken != [] then 1 else 0) + (if reply != [] then 1 else 0) &&
            (forall k :: 0 <= k < |t| ==> CleanVoiceMessage(t[k])) &&
            (spoken != [] ==> t[0].role == User && t[0].text == spoken) &&
            (reply != [] ==> t[|t| - 1].role == Assistant && t[|t| - 1].text == reply) &&
            (forall k :: 0 <= k < |t| ==> (t[k].role == User <==> k == 0 && spoken != []))
  {
    var u, b := VoiceUser(userNow, spoken), VoiceBot(botNow, reply);
    var t := TurnOf(spoken, reply, userNow, botNow);
    if spoken == [] && reply == [] {
      assert t == [];
    } else if spoken == [] {
      assert t == [b];
    } else if reply == [] {
      assert t == [u];
    } else {
      assert t == [u, b];
    }
  }

  /** A voice turn adds one message per part that is not blank (`Trim` is
      empty exactly for blank text), user before assistant, each
      voice-tagged, settled and carrying non-empty text: the trimmed
      transcript first, the trimmed answer last. */
  lemma VoiceTurnShape(transcript: string, answer: string, userNow: nat, botNow: nat)
    ensures var t := VoiceTurn(transcript, answer, userNow, botNow);
            var hasUser, hasBot := !IsBlank(transcript), !IsBlank(answer);
            |t| == (if hasUser then 1 else 0) + (if hasBot then 1 else 0) &&
            (forall k :: 0 <= k < |t| ==> CleanVoiceMessage(t[k])) &&
            (hasUser ==> t[0].role == User && t[0].text == Trim(transcript)) &&
            (hasBot ==> t[|t| - 1].role == Assistant && t[|t| - 1].text == Trim(answer)) &&
            (forall k :: 0 <= k < |t| ==> (t[k].role == User <==> k == 0 && hasUser))
  {
    TurnOfShape(Trim(transcript), Trim(answer), userNow, botNow);
  }

  // ---------------------------------------------------------------------
  // The component's state.

  class PhotoChatState {
    /** `floor(SCREEN_HEIGHT * 0.55)`, fixed for the component's life. */
    const scaledHeight: int
    var messages: seq<ChatMessage>
    var text: string
    var chatLoading: bool
    var chatError: Option<string>
    /** The questions passed to `onSendMessage`, oldest first. */
    var sent: seq<string>
    /** The sheet's resting offset (animations are taken as finished). */
    var translateY: real
    /** `dragStart.current`. */
    var dragStart: real
    var kbVisible: bool

    /** The sheet never rests outside its two ends. */
    ghost predicate Valid()
      reads this
    {
      Low(scaledHeight) <= translateY <= High(scaledHeight) &&
      Low(scaledHeight) <= dragStart <= High(scaledHeight)
    }

    /** A new component: no messages, empty input, the sheet collapsed. */
    constructor (scaledHeight: int)
      ensures Valid()
      ensures this.scaledHeight == scaledHeight
      ensures messages == [] && text == [] && !chatLoading && chatError == None && sent == []
      ensures translateY == Collapsed(scaledHeight) as real && dragStart == translateY && !kbVisible
    {
      this.scaledHeight := scaledHeight;
      messages, text, chatLoading, chatError, sent := [], [], false, None, [];
      translateY := Collapsed(scaledHeight) as real;
      dragStart := Collapsed(scaledHeight) as real;
      kbVisible := false;
    }

    /** The input box's `onChangeText`. */
    method TypeText(t: string)
      modifies this
      ensures text == t
      ensures messages == old(messages) && sent == old(sent) && chatLoading == old(chatLoading)
      ensures chatError == old(chatError) && translateY == old(translateY) && dragStart == old(dragStart)
      ensures kbVisible == old(kbVisible)
    {
      text := t;
    }

    /** `pushAssistant(text)`: one settled assistant message, text as given. */
    method PushAssistant(t: string, now: nat)
      modifies this
      ensures messages == old(messages) + [ChatMessage(BotId(now), Assistant, t, false, None)]
      ensures text == old(text) && sent == old(sent) && chatLoading == old(chatLoading)
      ensures chatError == old(chatError) && translateY == old(translateY) && dragStart == old(dragStart)
      ensures kbVisible == old(kbVisible)
    {
      messages := messages + [ChatMessage(BotId(now), Assistant, t, false, None)];
    }

    /** `pushVoiceTurn(transcript, answer)`, with the two `Date.now()`
        readings as `userNow` and `botNow`. */
    method PushVoiceTurn(transcript: string, answer: string, userNow: nat, botNow: nat)
      modifies this
      ensures messages == old(messages) + VoiceTurn(transcript, answer, userNow, botNow)
      ensures text == old(text) && sent == old(sent) && chatLoading == old(chatLoading)
      ensures chatError == old(chatError) && translateY == old(translateY) && dragStart == old(dragStart)
      ensures kbVisible == old(kbVisible)
    {
      ghost var before := messages;
      var spoken := Trim(transcript);
      if spoken != [] {
        messages := messages + [VoiceUser(userNow, spoken)];
      }
      ghost var middle := messages;
      var reply := Trim(answer);
      if reply != [] {
        messages := messages + [VoiceBot(botNow, reply)];
      }
      AppendAssociates(before, if spoken == [] then [] else [VoiceUser(userNow, spoken)],
                       if reply == [] then [] else [VoiceBot(botNow, reply)]);
    }

    /** The first steps of a non-blank send: report the question, clear the
        input, append the question and an empty pending answer, spring the
        sheet to the middle. */
    method AppendQuestion(q: string, userNow: nat, botNow: nat)
      requires Valid()
      modifies this
      ensures Valid()
      ensures sent == old(sent) + [q] && text == [] && messages == Added(old(messages), userNow, botNow, q)
      ensures translateY == Mid(scaledHeight) as real && dragStart == translateY
      ensures chatLoading == old(chatLoading) && chatError == old(chatError) && kbVisible == old(kbVisible)
    {
      sent := sent + [q];
      text := [];
      messages := Added(messages, userNow, botNow, q);
      MidBetween(scaledHeight);
      translateY := Mid(scaledHeight) as real;
      dragStart := Mid(scaledHeight) as real;
    }

    /** One `setMessages(prev => prev.map(...))` settling the pending id. */
    method SettlePending(id: string, t: string)
      modifies this
      ensures messages == ResolvePending(old(messages), id, t)
      ensures text == old(text) && sent == old(sent) && chatLoading == old(chatLoading)
      ensures chatError == old(chatError) && translateY == old(translateY) && dragStart == old(dragStart)
      ensures kbVisible == old(kbVisible)
    {
      messages := ResolvePending(messages, id, t);
    }

    /** The part of `handleSend(msg)` before the await. A blank question
        changes nothing. Otherwise the question is reported and the input
        cleared, the user message and an empty pending assistant message are
        appended, and the sheet springs to the middle. Then the pending
        message is settled at once with "scan first" (no matched top
        result), or with "rescan" and an error (no scan id); only with both
        does the call to the chat API start, with loading on and the error
        cleared. */
    method BeginSend(msg: Option<string>, userNow: nat, botNow: nat, scan: ScanView) returns (start: SendStart)
      requires Valid()
      modifies this
      ensures Valid()
      ensures kbVisible == old(kbVisible)
      ensures ToSend(msg, old(text)) == [] ==>
                start == Ignored && messages == old(messages) && text == old(text) && sent == old(sent) &&
                chatLoading == old(chatLoading) && chatError == old(chatError) &&
                translateY == old(translateY) && dragStart == old(dragStart)
      ensures ToSend(msg, old(text)) != [] ==>
                sent == old(sent) + [ToSend(msg, old(text))] && text == [] &&
                translateY == Mid(scaledHeight) as real && dragStart == translateY
      ensures ToSend(msg, old(text)) != [] && RouteOf(scan).NotScanned? ==>
                start == SettledLocally && chatLoading == old(chatLoading) && chatError == old(chatError) &&
                messages == ResolvePending(Added(old(messages), userNow, botNow, ToSend(msg, old(text))), BotId(botNow), ScanFirst)
      ensures ToSend(msg, old(text)) != [] && RouteOf(scan).MissingScanId? ==>
                start == SettledLocally && !chatLoading && chatError == Some(MissingScanIdError) &&
                messages == ResolvePending(Added(old(messages), userNow, botNow, ToSend(msg, old(text))), BotId(botNow), Rescan)
      ensures ToSend(msg, old(text)) != [] && RouteOf(scan).Ask? ==>
                start == Asking(BotId(botNow), ToSend(msg, old(text)), RouteOf(scan).scanId) &&
                chatLoading && chatError == None &&
                messages == Added(old(messages), userNow, botNow, ToSend(msg, old(text)))
    {
      var q := ToSend(msg, text);
      if q == [] {
        return Ignored;
      }
      AppendQuestion(q, userNow, botNow);
      var route := RouteOf(scan);
      match route {
        case NotScanned =>
          SettlePending(BotId(botNow), ScanFirst);
          start := SettledLocally;
        case MissingScanId =>
          chatError := Some(MissingScanIdError);
          SettlePending(BotId(botNow), Rescan);
          chatLoading := false;
          start := SettledLocally;
        case Ask(id) =>
          chatLoading := true;
          chatError := None;
          start := Asking(BotId(botNow), q, id);
      }
    }

    /** The part of `handleSend` after the await: the pending message takes
        the answer, or the apology with the thrown message as the error;
        loading ends either way. */
    method FinishSend(pendingId: string, reply: Reply)
      modifies this
      ensures !chatLoading
      ensures reply.Answered? ==>
                messages == ResolvePending(old(messages), pendingId, reply.answer) && chatError == old(chatError)
      ensures reply.Threw? ==>
                messages == ResolvePending(old(messages), pendingId, Sorry) && chatError == Some(reply.message)
      ensures text == old(text) && sent == old(sent) && translateY == old(translateY)
      ensures dragStart == old(dragStart) && kbVisible == old(kbVisible)
    {
      match reply {
        case Answered(answer) =>
          SettlePending(pendingId, answer);
        case Threw(message) =>
          chatError := Some(message);
          SettlePending(pendingId, Sorry);
      }
      chatLoading := false;
    }

    /** `handleSend(msg)` run to completion, `postChat` settling as `reply`
        when it is called. When no earlier message has the pending id, the
        history is untouched and exactly two messages are added: the trimmed
        question, then the assistant message settled with the first
        applicable text of "scan first", "rescan", the answer, the apology. */
    method Send(msg: Option<string>, userNow: nat, botNow: nat, scan: ScanView, reply: Reply)
      requires Valid()
      requires forall k :: 0 <= k < |messages| ==> messages[k].id != BotId(botNow)
      modifies this
      ensures Valid()
      ensures kbVisible == old(kbVisible)
      ensures ToSend(msg, old(text)) == [] ==>
                messages == old(messages) && text == old(text) && sent == old(sent) &&
                chatLoading == old(chatLoading) && chatError == old(chatError) &&
                translateY == old(translateY) && dragStart == old(dragStart)
      ensures ToSend(msg, old(text)) != [] ==>
                var q := ToSend(msg, old(text));
                var answer := match RouteOf(scan)
                              case NotScanned => ScanFirst
                              case MissingScanId => Rescan
                              case Ask(_) => if reply.Answered? then reply.answer else Sorry;
                messages == old(messages) + [UserMessage(userNow, q), PendingMessage(botNow).(pending := false, text := answer)] &&
                sent == old(sent) + [q] && text == [] &&
                translateY == Mid(scaledHeight) as real && dragStart == translateY &&
                (RouteOf(scan).NotScanned? ==> chatLoading == old(chatLoading) && chatError == old(chatError)) &&
                (RouteOf(scan).MissingScanId? ==> !chatLoading && chatError == Some(MissingScanIdError)) &&
                (RouteOf(scan).Ask? ==>
                   !chatLoading && chatError == (if reply.Threw? then Some(reply.message) else None))
    {
      var history := messages;
      var start := BeginSend(msg, userNow, botNow, scan);
      if start != Ignored {
        var q := ToSend(msg, old(text));
        UserAndBotIdsDiffer(userNow, botNow);
        var answer := match RouteOf(scan)
                      case NotScanned => ScanFirst
                      case MissingScanId => Rescan
                      case Ask(_) => if reply.Answered? then reply.answer else Sorry;
        if start.Asking? {
          FinishSend(start.pendingId, reply);
        }
        ResolveFreshPending(history, UserMessage(userNow, q), PendingMessage(botNow), answer);
      }
    }

    // -------------------------------------------------------------------
    // The sheet.

    /** `onPanResponderGrant`: the drag starts from the current offset. */
    method OnPanGrant()
      requires Valid()
      modifies this
      ensures Valid()
      ensures dragStart == old(translateY) && translateY == old(translateY)
      ensures messages == old(messages) && text == old(text) && kbVisible == old(kbVisible)
      ensures sent == old(sent) && chatLoading == old(chatLoading) && chatError == old(chatError)
    {
      dragStart := translateY;
    }

    /** `onPanResponderMove`: ignored while the keyboard is up; otherwise the
        offset follows the finger, clamped to the sheet's range. */
    method OnPanMove(dy: real)
      requires Valid()
      modifies this
      ensures Valid()
      ensures translateY == if old(kbVisible) then old(translateY) else Clamp(scaledHeight, old(dragStart) + dy)
      ensures dragStart == old(dragStart) && messages == old(messages) && text == old(text) && kbVisible == old(kbVisible)
      ensures sent == old(sent) && chatLoading == old(chatLoading) && chatError == old(chatError)
    {
      if kbVisible {
        return;
      }
      translateY := Clamp(scaledHeight, dragStart + dy);
    }

    /** `onPanResponderRelease`: ignored while the keyboard is up; otherwise
        the sheet springs to the snap target and the next drag starts there. */
    method OnPanRelease(dy: real, vy: real)
      requires Valid()
      modifies this
      ensures Valid()
      ensures old(kbVisible) ==> translateY == old(translateY) && dragStart == old(dragStart)
      ensures !old(kbVisible) ==>
                translateY == SnapTarget(scaledHeight, old(dragStart) + dy, vy) && dragStart == translateY
      ensures messages == old(messages) && text == old(text) && kbVisible == old(kbVisible)
      ensures sent == old(sent) && chatLoading == old(chatLoading) && chatError == old(chatError)
    {
      if kbVisible {
        return;
      }
      var target := SnapTarget(scaledHeight, dragStart + dy, vy);
      SnapTargetInRange(scaledHeight, dragStart + dy, vy);
      translateY := target;
      dragStart := target;
    }

    /** The keyboard appearing expands the sheet fully. */
    method OnKeyboardShow()
      requires Valid()
      modifies this
      ensures Valid()
      ensures kbVisible && translateY == Expanded as real && dragStart == translateY
      ensures messages == old(messages) && text == old(text)
      ensures sent == old(sent) && chatLoading == old(chatLoading) && chatError == old(chatError)
    {
      kbVisible := true;
      translateY := Expanded as real;
      dragStart := Expanded as real;
    }

    /** The keyboard hiding collapses the sheet. */
    method OnKeyboardHide()
      requires Valid()
      modifies this
      ensures Valid()
      ensures !kbVisible && translateY == Collapsed(scaledHeight) as real && dragStart == translateY
      ensures messages == old(messages) && text == old(text)
      ensures sent == old(sent) && chatLoading == old(chatLoading) && chatError == old(chatError)
    {
      kbVisible := false;
      translateY := Collapsed(scaledHeight) as real;
      dragStart := Collapsed(scaledHeight) as real;
    }

    /** Focusing the input box expands the sheet fully. */
    method OnInputFocus()
      requires Valid()
      modifies this
      ensures Valid()
      ensures translateY == Expanded as real && dragStart == translateY
      ensures messages == old(messages) && text == old(text) && kbVisible == old(kbVisible)
      ensures sent == old(sent) && chatLoading == old(chatLoading) && chatError == old(chatError)
    {
      translateY := Expanded as real;
      dragStart := Expanded as real;
    }

    /** Once a search result is in and nothing is loading, the sheet springs
        to the middle; otherwise nothing moves. */
    method OnScanChanged(scan: ScanView)
      requires Valid()
      modifies this
      ensures Valid()
      ensures scan.search.Some? && !scan.loading ==>
                translateY == Mid(scaledHeight) as real && dragStart == translateY
      ensures !(scan.search.Some? && !scan.loading) ==>
                translateY == old(translateY) && dragStart == old(dragStart)
      ensures messages == old(messages) && text == old(text) && kbVisible == old(kbVisible)
      ensures sent == old(sent) && chatLoading == old(chatLoading) && chatError == old(chatError)
    {
      if scan.search.Some? && !scan.loading {
        MidBetween(scaledHeight);
        translateY := Mid(scaledHeight) as real;
        dragStart := Mid(scaledHeight) as real;
      }
    }
  }

  /** A question asked without a scan never reaches the chat API and leaves
      the list with the question and the "scan first" reply; a blank one
      then leaves everything as it was. */
  method AskBeforeScanning(question: string)
    requires !IsBlank(question)
  {
    var chat := new PhotoChatState(1000);
    var none := ScanView(false, None, None, None);
    chat.TypeText(question);
    var start := chat.BeginSend(None, 7, 7, none);
    assert start == SettledLocally;
    assert chat.sent == [Trim(question)] && chat.text == [];
    assert |chat.messages| == 2 && chat.messages[1].text == ScanFirst && !chat.messages[1].pending;
    var again := chat.BeginSend(None, 8, 9, none);
    assert ToSend(None, []) == [];
    assert again == Ignored && |chat.messages| == 2 && chat.sent == [Trim(question)];
  }
}

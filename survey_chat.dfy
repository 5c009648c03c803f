/** The survey chat screen: the list of messages it shows, the loading and
    session-ending flags, and the session timer. Sending a message appends
    the user's turn and an empty assistant placeholder, posts the history to
    the chat route, and fills the placeholder from the streamed reply (or
    with an apology when the request fails).

    Message ids are the millisecond clock readings the client turns into
    decimal strings; they are kept here as the numbers themselves, which
    compare equal exactly when their decimal strings do. */
module SurveyChat {

  import opened Wrappers
  import opened Text
  import opened Conversation
  import ChatStream
  import ChatRoute
  import ChatInput

  datatype Message = Message(id: int, role: Role, content: string, timestamp: int)

  const InitialId := 1
  const Greeting := "Hi! I'd love to learn about your startup and how your team works. Let's start with something simple - what's your company about and what problem are you solving?"
  const Apology := "I'm sorry, there was an error processing your message. Please try again."

  /** The body the client posts to the chat route. */
  datatype ClientRequest = ClientRequest(messages: seq<Turn>, sessionDuration: int, isSessionEnding: bool)

  /** What the chat route's response turns out to be, as the client meets it:
      a status that is not ok, a response without a body, or a body whose
      chunks arrive in order and then either end or fail to be read. */
  datatype Reply = NotOk | NoBody | Body(chunks: seq<string>, readFails: bool)

  /** The history sent with a request: every message reduced to its role and
      content, in order. */
  function History(msgs: seq<Message>): (r: seq<Turn>)
    ensures |r| == |msgs|
    ensures forall i :: 0 <= i < |msgs| ==> r[i] == Turn(msgs[i].role, msgs[i].content)
  {
    if |msgs| == 0 then [] else [Turn(msgs[0].role, msgs[0].content)] + History(msgs[1..])
  }

  /** `prev.map(msg => msg.id === id ? { ...msg, content } : msg)`: every
      message with that id gets the new content, every other message is
      left as it was, and the order is kept. */
  function SetContentById(msgs: seq<Message>, id: int, content: string): (r: seq<Message>)
    ensures |r| == |msgs|
    ensures forall i :: 0 <= i < |msgs| ==>
              r[i] == (if msgs[i].id == id then msgs[i].(content := content) else msgs[i])
  {
    if |msgs| == 0 then []
    else
      var m := msgs[0];
      [if m.id == id then m.(content := content) else m] + SetContentById(msgs[1..], id, content)
  }

  /** The last write to an id wins. */
  lemma SetContentByIdTwice(msgs: seq<Message>, id: int, a: string, b: string)
    ensures SetContentById(SetContentById(msgs, id, a), id, b) == SetContentById(msgs, id, b)
  {
    var l := SetContentById(SetContentById(msgs, id, a), id, b);
    var r := SetContentById(msgs, id, b);
    assert forall i :: 0 <= i < |msgs| ==> l[i] == r[i];
  }

  /** When no earlier message and not the user's message carries the
      placeholder's id, writing to that id changes the placeholder alone. */
  lemma SetContentOfFreshPlaceholder(prior: seq<Message>, user: Message, placeholder: Message, content: string)
    requires forall i :: 0 <= i < |prior| ==> prior[i].id != placeholder.id
    requires user.id != placeholder.id
    ensures SetContentById(prior + [user, placeholder], placeholder.id, content)
            == prior + [user, placeholder.(content := content)]
  {
    var l := SetContentById(prior + [user, placeholder], placeholder.id, content);
    var r := prior + [user, placeholder.(content := content)];
    assert forall i :: 0 <= i < |prior| ==> l[i] == r[i];
    assert l[|prior|] == r[|prior|] && l[|prior| + 1] == r[|prior| + 1];
  }

  /** The text the placeholder ends up with: the apology when the request
      fails or the reply stream fails before the end marker, and otherwise
      what the client decoded from the chunks it read. */
  function ReplyText(reply: Reply): string
  {
    match reply
    case Body(chunks, readFails) =>
      var st := ChatStream.DecodeChunks(ChatStream.Start, chunks);
      if readFails && !st.done then Apology else st.content
    case _ => Apology
  }

  /** The messages on screen while a reply streams in: the placeholder is
      only ever written with non-empty text, so while nothing has been
      accumulated it is left as it was. */
  function Shown(base: seq<Message>, placeholderId: int, text: string): seq<Message>
  {
    if text == "" then base else SetContentById(base, placeholderId, text)
  }

  /** Writing non-empty text over what is shown is the same as showing that
      text from the start. */
  lemma ShownOverwrite(base: seq<Message>, placeholderId: int, acc: string, text: string)
    requires text != ""
    ensures SetContentById(Shown(base, placeholderId, acc), placeholderId, text) == Shown(base, placeholderId, text)
  {
    if acc != "" {
      SetContentByIdTwice(base, placeholderId, acc, text);
    }
  }

  /** The messages after a send. */
  function SendOutcome(base: seq<Message>, placeholderId: int, reply: Reply): seq<Message>
  {
    Shown(base, placeholderId, ReplyText(reply))
  }

  /** Sending appends two messages after the existing ones — the user's turn,
      then the assistant's placeholder — and nothing else changes but the
      placeholder's content, which becomes the reply text. Ids are fresh when
      the clock has moved on since the earlier messages were made. */
  lemma SendKeepsHistory(prior: seq<Message>, user: Message, placeholder: Message, reply: Reply)
    requires placeholder.content == ""
    requires forall i :: 0 <= i < |prior| ==> prior[i].id != placeholder.id
    requires user.id != placeholder.id
    ensures SendOutcome(prior + [user, placeholder], placeholder.id, reply)
            == prior + [user, placeholder.(content := ReplyText(reply))]
  {
    var text := ReplyText(reply);
    if text == "" {
      assert placeholder.(content := text) == placeholder;
    } else {
      SetContentOfFreshPlaceholder(prior, user, placeholder, text);
    }
  }

  /** A request that fails before streaming leaves the apology in the
      placeholder, as does a stream that breaks off before the end marker. */
  lemma FailureShowsApology(chunks: seq<string>)
    requires !ChatStream.DecodeChunks(ChatStream.Start, chunks).done
    ensures ReplyText(NotOk) == Apology && ReplyText(NoBody) == Apology
    ensures ReplyText(Body(chunks, true)) == Apology
  {
  }

  /** End to end: when the chat route's reply reaches the client as whole
      lines, the placeholder ends up holding the model's text deltas,
      concatenated in order; a read failure after the end marker no longer
      matters. */
  lemma StreamedReplyFillsPlaceholder(deltas: seq<string>, chunks: seq<string>, readFails: bool)
    requires Concat(chunks) == ChatStream.EncodedStream(deltas)
    requires forall i :: 0 <= i < |chunks| ==> ChatStream.WholeLines(chunks[i])
    ensures ReplyText(Body(chunks, readFails)) == Concat(deltas)
  {
    ChatStream.DecodeWholeLineDelivery(deltas, chunks);
  }

  /** Whole seconds elapsed between two clock readings in milliseconds,
      rounded down (`Math.floor`, also when the clock went backwards). */
  function ElapsedSeconds(startMs: int, nowMs: int): (s: int)
    ensures s * 1000 <= nowMs - startMs < (s + 1) * 1000
  {
    (nowMs - startMs) / 1000
  }

  /** The wind-down threshold: 60 whole seconds are reached exactly when
      60000 milliseconds have passed. */
  lemma WindDownThreshold(startMs: int, nowMs: int)
    ensures ElapsedSeconds(startMs, nowMs) >= 60 <==> nowMs - startMs >= 60000
  {
  }

  /** The body the chat route reads from the client's request: the client's
      turns as an array of role and content, and no `shouldConclude`
      property, which the route therefore reads as false. */
  function RouteBody(req: ClientRequest): (r: ChatRoute.ChatRequest)
    ensures r.messages.AnArray? && |r.messages.items| == |req.messages|
  {
    ChatRoute.ChatRequest(ChatRoute.AnArray(RouteItems(req.messages)), false)
  }

  function RouteItems(turns: seq<Turn>): (r: seq<ChatRoute.IncomingMessage>)
    ensures |r| == |turns|
    ensures forall i :: 0 <= i < |turns| ==>
              r[i] == ChatRoute.Item(RoleName(turns[i].role), turns[i].content, [])
  {
    if |turns| == 0 then []
    else [ChatRoute.Item(RoleName(turns[0].role), turns[0].content, [])] + RouteItems(turns[1..])
  }

  /** What the model is sent for a chat request: the earlier messages and the
      new one, in order, with their role names and contents — and the base
      prompt alone, even once the session is ending, since the client never
      sends the conclude flag the route looks for. */
  lemma ModelSeesHistory(prior: seq<Message>, user: Message, duration: int, ending: bool)
    ensures ChatRoute.Forward(RouteBody(ClientRequest(History(prior + [user]), duration, ending)).messages.items).Some?
    ensures var items := ChatRoute.Forward(RouteBody(ClientRequest(History(prior + [user]), duration, ending)).messages.items).value;
            && |items| == |prior| + 1
            && (forall i :: 0 <= i < |prior| ==>
                  items[i] == ChatRoute.ApiMessage(RoleName(prior[i].role), prior[i].content))
            && items[|prior|] == ChatRoute.ApiMessage(RoleName(user.role), user.content)
    ensures !RouteBody(ClientRequest(History(prior + [user]), duration, ending)).shouldConclude
  {
    var msgs := prior + [user];
    var routed := RouteBody(ClientRequest(History(msgs), duration, ending)).messages.items;
    assert forall i :: 0 <= i < |routed| ==> routed[i].Item?;
    var items := ChatRoute.Forward(routed).value;
    forall i | 0 <= i < |msgs|
      ensures items[i] == ChatRoute.ApiMessage(RoleName(msgs[i].role), msgs[i].content)
    {
    }
    assert msgs[|prior|] == user;
    forall i | 0 <= i < |prior|
      ensures items[i] == ChatRoute.ApiMessage(RoleName(prior[i].role), prior[i].content)
    {
      assert msgs[i] == prior[i];
    }
  }

  /** The state of the chat screen. */
  class ChatSession {
    var messages: seq<Message>
    var isLoading: bool
    var sessionStartTime: Option<int>
    var sessionDuration: int
    var isSessionEnding: bool
    /** The duration and ending flag the send handler closed over. The
        handler is memoized on the messages alone, so it holds the values of
        the last render in which the messages changed, not the current
        ones. */
    var capturedDuration: int
    var capturedEnding: bool

    /** The screen as first shown: the greeting alone, made when the module
        was loaded, and no session started. */
    constructor (loadTime: int)
      ensures messages == [Message(InitialId, Assistant, Greeting, loadTime)]
      ensures !isLoading && sessionStartTime == None && sessionDuration == 0 && !isSessionEnding
      ensures capturedDuration == 0 && !capturedEnding
    {
      messages := [Message(InitialId, Assistant, Greeting, loadTime)];
      isLoading := false;
      sessionStartTime := None;
      sessionDuration := 0;
      isSessionEnding := false;
      capturedDuration := 0;
      capturedEnding := false;
    }

    /** The input is disabled while a reply is loading and once the session
        is ending. */
    predicate InputDisabled()
      reads this
    {
      isLoading || isSessionEnding
    }

    /** The first keystroke starts the session clock; later calls keep the
        first start time. */
    method StartSessionTimer(now: int)
      modifies this
      ensures sessionStartTime == if old(sessionStartTime).None? then Some(now) else old(sessionStartTime)
      ensures messages == old(messages) && isLoading == old(isLoading)
      ensures sessionDuration == old(sessionDuration) && isSessionEnding == old(isSessionEnding)
      ensures capturedDuration == old(capturedDuration) && capturedEnding == old(capturedEnding)
    {
      if sessionStartTime.None? {
        sessionStartTime := Some(now);
      }
    }

    /** One tick of the once-a-second timer. The timer runs only once the
        session has started and until it is ending; a tick records the whole
        seconds elapsed and marks the session as ending from 60 seconds on. */
    method Tick(now: int)
      modifies this
      ensures old(sessionStartTime).Some? && !old(isSessionEnding) ==>
                && sessionDuration == ElapsedSeconds(old(sessionStartTime).value, now)
                && isSessionEnding == (sessionDuration >= 60)
      ensures old(sessionStartTime).None? || old(isSessionEnding) ==>
                sessionDuration == old(sessionDuration) && isSessionEnding == old(isSessionEnding)
      ensures old(isSessionEnding) ==> isSessionEnding
      ensures messages == old(messages) && isLoading == old(isLoading) && sessionStartTime == old(sessionStartTime)
      ensures capturedDuration == old(capturedDuration) && capturedEnding == old(capturedEnding)
    {
      if sessionStartTime.Some? && !isSessionEnding {
        var duration := ElapsedSeconds(sessionStartTime.value, now);
        sessionDuration := duration;
        if duration >= 60 {
          isSessionEnding := true;
        }
      }
    }

    /** Sending a message. The user's message (id and time from the first
        clock reading) and an empty assistant placeholder (id one more than
        the second reading) are appended; the history with the user's
        message is posted; then the reply is read chunk by chunk and line by
        line, each non-empty text being appended to the placeholder, until
        the end marker or the end of the stream. A failed request or read
        puts the apology in the placeholder. Loading ends in every case.
        The request posts the duration and ending flag the handler captured;
        since the messages changed, the next render's handler captures the
        current ones. */
    method SendMessage(content: string, userClock: int, placeholderClock: int, reply: Reply)
      returns (request: ClientRequest)
      modifies this
      ensures request == ClientRequest(History(old(messages) + [Message(userClock, User, content, userClock)]),
                                       old(capturedDuration), old(capturedEnding))
      ensures messages == SendOutcome(old(messages) + [Message(userClock, User, content, userClock),
                                                        Message(placeholderClock + 1, Assistant, "", placeholderClock)],
                                      placeholderClock + 1, reply)
      ensures !isLoading
      ensures sessionStartTime == old(sessionStartTime) && sessionDuration == old(sessionDuration)
      ensures isSessionEnding == old(isSessionEnding)
      ensures capturedDuration == sessionDuration && capturedEnding == isSessionEnding
    {
      var userMessage := Message(userClock, User, content, userClock);
      request := ClientRequest(History(messages + [userMessage]), capturedDuration, capturedEnding);
      messages := messages + [userMessage];
      isLoading := true;
      var placeholderId := placeholderClock + 1;
      messages := messages + [Message(placeholderId, Assistant, "", placeholderClock)];
      ghost var base := messages;
      assert base == old(messages) + [userMessage, Message(placeholderId, Assistant, "", placeholderClock)];

      match reply {
      case NotOk =>
        ShownOverwrite(base, placeholderId, "", Apology);
        messages := SetContentById(messages, placeholderId, Apology);
        assert ReplyText(reply) == Apology;
      case NoBody =>
        ShownOverwrite(base, placeholderId, "", Apology);
        messages := SetContentById(messages, placeholderId, Apology);
        assert ReplyText(reply) == Apology;
      case Body(chunks, readFails) =>
        ReadReply(chunks, readFails, base, placeholderId);
      }
      isLoading := false;
      capturedDuration, capturedEnding := sessionDuration, isSessionEnding;
    }

    /** Reading the reply body: chunk by chunk until the end marker or the end
        of the stream; a read that fails before the end marker puts the
        apology in the placeholder. */
    method ReadReply(chunks: seq<string>, readFails: bool, ghost base: seq<Message>, placeholderId: int)
      requires messages == base
      modifies this
      ensures messages == Shown(base, placeholderId, ReplyText(Body(chunks, readFails)))
      ensures isLoading == old(isLoading) && sessionStartTime == old(sessionStartTime)
      ensures sessionDuration == old(sessionDuration) && isSessionEnding == old(isSessionEnding)
      ensures capturedDuration == old(capturedDuration) && capturedEnding == old(capturedEnding)
    {
      ghost var target := ChatStream.DecodeChunks(ChatStream.Start, chunks);
      var acc := "";
      var finished := false;
      var i := 0;
      while i < |chunks| && !finished
        invariant 0 <= i <= |chunks|
        invariant ChatStream.DecodeChunks(ChatStream.DecodeState(acc, finished), chunks[i..]) == target
        invariant messages == Shown(base, placeholderId, acc)
        invariant sessionStartTime == old(sessionStartTime) && sessionDuration == old(sessionDuration)
        invariant isSessionEnding == old(isSessionEnding) && isLoading == old(isLoading)
        invariant capturedDuration == old(capturedDuration) && capturedEnding == old(capturedEnding)
      {
        assert chunks[i..][1..] == chunks[i + 1..];
        acc, finished := ReadChunk(chunks[i], base, placeholderId, acc);
        i := i + 1;
      }
      if finished {
        ChatStream.DoneChunksAbsorb(ChatStream.DecodeState(acc, finished), chunks[i..]);
      } else {
        assert chunks[i..] == [];
      }
      assert target == ChatStream.DecodeState(acc, finished);
      if readFails && !finished {
        ShownOverwrite(base, placeholderId, acc, Apology);
        messages := SetContentById(messages, placeholderId, Apology);
        assert ReplyText(Body(chunks, readFails)) == Apology;
      } else {
        assert ReplyText(Body(chunks, readFails)) == acc;
      }
    }

    /** Reading one received chunk: its lines in order, each `data: ` line's
        non-empty text appended to what has been accumulated and shown in the
        placeholder, until the end marker. */
    method ReadChunk(chunk: string, ghost base: seq<Message>, placeholderId: int, acc0: string)
      returns (acc: string, finished: bool)
      requires messages == Shown(base, placeholderId, acc0)
      modifies this
      ensures ChatStream.DecodeState(acc, finished) == ChatStream.DecodeChunk(ChatStream.DecodeState(acc0, false), chunk)
      ensures messages == Shown(base, placeholderId, acc)
      ensures isLoading == old(isLoading) && sessionStartTime == old(sessionStartTime)
      ensures sessionDuration == old(sessionDuration) && isSessionEnding == old(isSessionEnding)
      ensures capturedDuration == old(capturedDuration) && capturedEnding == old(capturedEnding)
    {
      acc, finished := acc0, false;
      var lines := Split(chunk, '\n');
      var j := 0;
      while j < |lines| && !finished
        invariant 0 <= j <= |lines|
        invariant ChatStream.DecodeLines(ChatStream.DecodeState(acc, finished), lines[j..])
                  == ChatStream.DecodeChunk(ChatStream.DecodeState(acc0, false), chunk)
        invariant messages == Shown(base, placeholderId, acc)
        invariant isLoading == old(isLoading) && sessionStartTime == old(sessionStartTime)
        invariant sessionDuration == old(sessionDuration) && isSessionEnding == old(isSessionEnding)
        invariant capturedDuration == old(capturedDuration) && capturedEnding == old(capturedEnding)
      {
        var line := lines[j];
        ghost var now := ChatStream.DecodeState(acc, finished);
        if StartsWith(line, ChatStream.DataPrefix) {
          var data := line[|ChatStream.DataPrefix|..];
          if data == ChatStream.DoneMarker {
            finished := true;
          } else {
            var parsed := ChatStream.ParseTextPayload(data);
            if parsed.Some? && parsed.value != "" {
              ShownOverwrite(base, placeholderId, acc, acc + parsed.value);
              acc := acc + parsed.value;
              messages := SetContentById(messages, placeholderId, acc);
            }
          }
        }
        assert ChatStream.DecodeLine(now, line) == ChatStream.DecodeState(acc, finished);
        assert lines[j..][1..] == lines[j + 1..];
        j := j + 1;
      }
      if finished {
        ChatStream.DoneLinesAbsorb(ChatStream.DecodeState(acc, finished), lines[j..]);
      } else {
        assert lines[j..] == [];
      }
    }
  }

  /** The send handler still holds the values of the first render until the
      first send: a visitor who starts typing and sends after any number of
      seconds posts a duration of 0 and no ending flag, while the screen's
      own duration has moved on. */
  method FirstSendPostsMountValues(loadTime: int, start: int, now: int, content: string,
                                   userClock: int, placeholderClock: int, reply: Reply)
    returns (request: ClientRequest, shownDuration: int)
    ensures request.sessionDuration == 0 && !request.isSessionEnding
    ensures shownDuration == ElapsedSeconds(start, now)
  {
    var session := new ChatSession(loadTime);
    session.StartSessionTimer(start);
    session.Tick(now);
    shownDuration := session.sessionDuration;
    request := session.SendMessage(content, userClock, placeholderClock, reply);
  }

  /** A submit from the input box, which the screen renders disabled while a
      reply loads and once the session is ending: a disabled box sends
      nothing and no turn is appended; otherwise a non-empty draft is sent,
      trimmed, as the next user turn. */
  method Submit(session: ChatSession, box: ChatInput.ChatInputBox,
                userClock: int, placeholderClock: int, reply: Reply)
    returns (request: Option<ClientRequest>)
    requires box.Valid()
    modifies session, box
    ensures box.Valid()
    ensures request.Some? <==> !old(session.InputDisabled()) && Trim(old(box.message)) != ""
    ensures request.None? ==> session.messages == old(session.messages) && box.message == old(box.message)
    ensures request.Some? ==>
              session.messages == SendOutcome(old(session.messages) + [Message(userClock, User, Trim(old(box.message)), userClock),
                                                                       Message(placeholderClock + 1, Assistant, "", placeholderClock)],
                                              placeholderClock + 1, reply)
    ensures session.isSessionEnding == old(session.isSessionEnding)
  {
    var sent := box.HandleSubmit(session.InputDisabled());
    if sent.Some? {
      var r := session.SendMessage(sent.value, userClock, placeholderClock, reply);
      request := Some(r);
    } else {
      request := None;
    }
  }

  /** What the visitor does on the chat screen: type into the box, submit
      it, or let the session clock tick. */
  datatype UiEvent =
    | Type(value: string, now: int)
    | SubmitDraft(userClock: int, placeholderClock: int, reply: Reply)
    | TimerTick(now: int)

  /** A run of events on the screen. Once the session is ending it stays
      ending and no further turn is appended, whatever the visitor does. */
  method Run(session: ChatSession, box: ChatInput.ChatInputBox, events: seq<UiEvent>)
    returns (requests: seq<ClientRequest>)
    requires box.Valid()
    modifies session, box
    ensures box.Valid()
    ensures old(session.isSessionEnding) ==> session.isSessionEnding
    ensures old(session.isSessionEnding) ==> session.messages == old(session.messages) && requests == []
  {
    requests := [];
    var i := 0;
    while i < |events|
      invariant 0 <= i <= |events|
      invariant box.Valid()
      invariant old(session.isSessionEnding) ==> session.isSessionEnding
      invariant old(session.isSessionEnding) ==> session.messages == old(session.messages) && requests == []
    {
      match events[i] {
        case Type(value, now) =>
          var fire := box.HandleChange(value);
          if fire {
            session.StartSessionTimer(now);
          }
        case SubmitDraft(userClock, placeholderClock, reply) =>
          var r := Submit(session, box, userClock, placeholderClock, reply);
          if r.Some? {
            requests := requests + [r.value];
          }
        case TimerTick(now) =>
          session.Tick(now);
      }
      i := i + 1;
    }
  }
}

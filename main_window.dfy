/**
 * The chat bookkeeping of the main window, ChatbotGUI, without its widgets:
 * the messages of the chat on screen, the list of chat sessions with the
 * index of the current one, and the text of the answer being streamed.
 */
module MainWindow {
  import opened Wrappers
  import opened Text
  import Workers
  import Dialogs

  datatype Role = User | Assistant

  /** One entry of `messages`: {"role": ..., "content": ...}. */
  datatype Message = Message(role: Role, content: string)

  /** One entry of `chat_sessions`. */
  datatype Session = Session(name: string, timestamp: string, messages: seq<Message>, model: string)

  /** A chat file as load_chat reads it: its `messages` and its `model` ("" when absent). */
  datatype ChatFile = ChatFile(messages: seq<Message>, model: string)

  const PreviewLength := 30
  const DefaultTemperature := 7  // 0.7, in tenths
  const DefaultMaxTokens := 2000
  const DefaultSystemPrompt := "You are a helpful AI assistant."

  function Min(a: int, b: int): int {
    if a <= b then a else b
  }

  function Max(a: int, b: int): int {
    if a <= b then b else a
  }

  function RoleOf(isUser: bool): Role {
    if isUser then User else Assistant
  }

  /**
   * The name a session takes from its first message: at most 30 characters
   * of the text are kept, and "..." marks a text that was cut.
   */
  function Preview(text: string): (r: string)
    ensures |r| == if |text| <= PreviewLength then |text| else PreviewLength + 3
    ensures r[..Min(|text|, PreviewLength)] == text[..Min(|text|, PreviewLength)]
    ensures |text| <= PreviewLength ==> r == text
    ensures |text| > PreviewLength ==> r[PreviewLength..] == "..."
  {
    if |text| > PreviewLength then Prefix(text, PreviewLength) + "..." else text
  }

  /** The name of the n-th session created: "Chat n". */
  function SessionName(n: nat): (r: string)
    ensures |r| > 5 && r[..5] == "Chat " && r[5..] == Decimal(n)
    ensures forall i :: 5 <= i < |r| ==> '0' <= r[i] <= '9'
    ensures r[5] == '0' ==> |r| == 6
    ensures DecimalValue(r[5..]) == n
  {
    DecimalRoundTrip(n);
    var r := "Chat " + Decimal(n);
    assert r[5..] == Decimal(n);
    r
  }

  /**
   * Sessions created at different list lengths get different names: the
   * digits of each name read back as its own length.
   */
  lemma SessionNamesDiffer(m: nat, n: nat)
    requires m != n
    ensures SessionName(m) != SessionName(n)
  {
  }

  /**
   * The name load_chat gives a loaded chat: "Loaded" for a file without
   * messages, else at most 30 characters of the first message followed by
   * "...", which is added even when nothing was cut.
   */
  function LoadedName(messages: seq<Message>): (r: string)
    ensures messages == [] ==> r == "Loaded"
    ensures messages != [] ==>
              var n := Min(|messages[0].content|, PreviewLength);
              && |r| == n + 3
              && r[..n] == messages[0].content[..n]
              && r[n..] == "..."
  {
    if messages == [] then "Loaded" else Prefix(messages[0].content, PreviewLength) + "..."
  }

  /**
   * The session list once `messages`, ending with a message just added, is
   * copied into the session at `index` (when there is one); the first
   * message also names the session.
   */
  function WithMessages(sessions: seq<Session>, index: int, messages: seq<Message>): seq<Session>
    requires messages != [] && index < |sessions|
  {
    if index < 0 then sessions
    else
      var s := sessions[index];
      sessions[index := s.(messages := messages,
                           name := if |messages| == 1 then Preview(messages[0].content) else s.name)]
  }

  /** Copying messages into a session touches that session only, and names it after the first message. */
  lemma WithMessagesTouchesOneSession(sessions: seq<Session>, index: int, messages: seq<Message>)
    requires messages != [] && 0 <= index < |sessions|
    ensures var r := WithMessages(sessions, index, messages);
            && |r| == |sessions|
            && (forall j :: 0 <= j < |r| && j != index ==> r[j] == sessions[j])
            && r[index].messages == messages
            && r[index].timestamp == sessions[index].timestamp && r[index].model == sessions[index].model
            && (|messages| == 1 ==> r[index].name == Preview(messages[0].content))
            && (|messages| > 1 ==> r[index].name == sessions[index].name)
  {
  }

  /** finish_response keeps the streamed text exactly when there is some and it answers a user message. */
  predicate AnswerKept(response: string, messages: seq<Message>) {
    response != "" && messages != [] && messages[|messages| - 1].role == User
  }

  class ChatbotGui {
    var messages: seq<Message>
    var currentResponse: string
    var worker: Workers.OllamaWorker?
    var sessions: seq<Session>
    var currentSessionIndex: int
    var busy: bool  // input box and Send button disabled, loading label shown
    const settings: Dialogs.Settings

    /** current_session_index is -1 while there is no session, and otherwise a valid index. */
    predicate Valid()
      reads this
    {
      (currentSessionIndex == -1 && sessions == []) || 0 <= currentSessionIndex < |sessions|
    }

    /** The chat on screen is the one stored in the current session. */
    predicate Synced()
      reads this
    {
      Valid() && (currentSessionIndex >= 0 ==> sessions[currentSessionIndex].messages == messages)
    }

    /** __init__: default settings, then the first session; the model list is still empty. */
    constructor (now: string)
      ensures fresh(settings)
      ensures settings.temperature == DefaultTemperature && settings.maxTokens == DefaultMaxTokens
      ensures settings.systemPrompt == DefaultSystemPrompt
      ensures messages == [] && currentResponse == "" && worker == null && !busy
      ensures sessions == [Session(SessionName(1), now, [], "")] && currentSessionIndex == 0
      ensures Synced()
    {
      messages := [];
      currentResponse := "";
      worker := null;
      busy := false;
      sessions := [];
      currentSessionIndex := -1;
      settings := new Dialogs.Settings(DefaultTemperature, DefaultMaxTokens, DefaultSystemPrompt);
      new;
      CreateFreshSession(now, "");
    }

    /**
     * add_message: one entry is appended to `messages`, which is then copied
     * into the current session; the first message names that session.
     */
    method AddMessage(text: string, isUser: bool)
      requires Valid()
      modifies this`messages, this`sessions
      ensures messages == old(messages) + [Message(RoleOf(isUser), text)]
      ensures sessions == WithMessages(old(sessions), currentSessionIndex, messages)
      ensures Synced()
    {
      messages := messages + [Message(RoleOf(isUser), text)];
      if currentSessionIndex >= 0 {
        var s := sessions[currentSessionIndex];
        s := s.(messages := messages);
        if |messages| == 1 {
          s := s.(name := Preview(text));
        }
        sessions := sessions[currentSessionIndex := s];
      }
    }

    /**
     * send_message: nothing happens unless the stripped input is non-empty
     * and a model is selected (`selectedModel` is the selector's current
     * text). Otherwise the stripped input becomes a user message, the
     * accumulator is reset and a worker for that prompt is started with the
     * current settings.
     */
    method SendMessage(input: string, selectedModel: string) returns (sent: bool)
      requires Valid()
      modifies this
      ensures sent <==> !AllSpace(input) && selectedModel != ""
      ensures !sent ==> unchanged(this)
      ensures sent ==> && messages == old(messages) + [Message(User, Strip(input))]
                       && currentSessionIndex == old(currentSessionIndex)
                       && sessions == WithMessages(old(sessions), old(currentSessionIndex), messages)
                       && currentResponse == "" && busy && Synced()
      ensures sent ==> && worker != null && fresh(worker)
                       && worker.model == selectedModel && worker.prompt == Strip(input)
                       && worker.systemPrompt == settings.systemPrompt
                       && worker.temperature == settings.temperature && worker.maxTokens == settings.maxTokens
                       && worker.isRunning && worker.started && worker.emitted == []
    {
      var text := Strip(input);
      if text == [] || selectedModel == "" {
        return false;
      }
      AddMessage(text, true);
      busy := true;
      currentResponse := "";
      var w := new Workers.OllamaWorker(selectedModel, text, settings.systemPrompt,
                                        settings.temperature, settings.maxTokens);
      w.Start();
      worker := w;
      return true;
    }

    /** update_response: the token is appended to the answer being streamed. */
    method UpdateResponse(token: string)
      modifies this`currentResponse
      ensures currentResponse == old(currentResponse) + token
    {
      currentResponse := currentResponse + token;
    }

    /**
     * finish_response as written: with a non-empty accumulator it reads
     * messages[-1], which fails (`crashed`, nothing changes) when the chat
     * was cleared while the answer was streaming.
     */
    method FinishResponse() returns (crashed: bool)
      requires Valid()
      modifies this`messages, this`sessions, this`currentResponse, this`busy
      ensures crashed <==> old(currentResponse) != "" && old(messages) == []
      ensures crashed ==> unchanged(this)
      ensures !crashed && AnswerKept(old(currentResponse), old(messages)) ==>
                && messages == old(messages) + [Message(Assistant, old(currentResponse))]
                && sessions == WithMessages(old(sessions), currentSessionIndex, messages)
      ensures !crashed && !AnswerKept(old(currentResponse), old(messages)) ==>
                messages == old(messages) && sessions == old(sessions)
      ensures !crashed ==> currentResponse == "" && !busy
    {
      if currentResponse != "" {
        if messages == [] {
          return true;  // IndexError from messages[-1]
        }
        if messages[|messages| - 1].role == User {
          AddMessage(currentResponse, false);
        }
      }
      currentResponse := "";
      busy := false;
      return false;
    }

    /**
     * finish_response with the emptiness test the guard needs: the answer
     * becomes an assistant message exactly when AnswerKept holds, and the
     * window is ready for the next message either way.
     */
    method FinishResponseGuarded()
      requires Valid()
      modifies this`messages, this`sessions, this`currentResponse, this`busy
      ensures AnswerKept(old(currentResponse), old(messages)) ==>
                && messages == old(messages) + [Message(Assistant, old(currentResponse))]
                && sessions == WithMessages(old(sessions), currentSessionIndex, messages)
      ensures !AnswerKept(old(currentResponse), old(messages)) ==>
                messages == old(messages) && sessions == old(sessions)
      ensures currentResponse == "" && !busy
      ensures old(Synced()) ==> Synced()
    {
      if currentResponse != "" && messages != [] && messages[|messages| - 1].role == User {
        AddMessage(currentResponse, false);
      }
      currentResponse := "";
      busy := false;
    }

    /** handle_error: after the error box, the same path as a finished answer, so partial text is kept. */
    method HandleError(error: string)
      requires Valid()
      modifies this`messages, this`sessions, this`currentResponse, this`busy
      ensures AnswerKept(old(currentResponse), old(messages)) ==>
                && messages == old(messages) + [Message(Assistant, old(currentResponse))]
                && sessions == WithMessages(old(sessions), currentSessionIndex, messages)
      ensures !AnswerKept(old(currentResponse), old(messages)) ==>
                messages == old(messages) && sessions == old(sessions)
      ensures currentResponse == "" && !busy
      ensures old(Synced()) ==> Synced()
    {
      FinishResponseGuarded();
    }

    /** The slot each signal of the generation worker is connected to. */
    method Deliver(e: Workers.GenerationEvent)
      requires Valid()
      modifies this`messages, this`sessions, this`currentResponse, this`busy
      ensures e.Token? ==> && currentResponse == old(currentResponse) + e.text
                           && messages == old(messages) && sessions == old(sessions) && busy == old(busy)
      ensures !e.Token? ==> currentResponse == "" && !busy
      ensures !e.Token? && AnswerKept(old(currentResponse), old(messages)) ==>
                && messages == old(messages) + [Message(Assistant, old(currentResponse))]
                && sessions == WithMessages(old(sessions), currentSessionIndex, messages)
      ensures !e.Token? && !AnswerKept(old(currentResponse), old(messages)) ==>
                messages == old(messages) && sessions == old(sessions)
      ensures old(Synced()) ==> Synced()
    {
      match e
      case Token(text) => UpdateResponse(text);
      case Finished => FinishResponseGuarded();
      case Error(message) => HandleError(message);
    }

    /**
     * create_new_session as written: a new session "Chat n+1" becomes the
     * current one, but `messages` keeps the previous chat.
     */
    method CreateNewSession(now: string, selectedModel: string)
      requires Valid()
      modifies this`sessions, this`currentSessionIndex
      ensures sessions == old(sessions) + [Session(SessionName(|old(sessions)| + 1), now, [], selectedModel)]
      ensures currentSessionIndex == |old(sessions)|
      ensures Valid()
    {
      var session := Session(SessionName(|sessions| + 1), now, [], selectedModel);
      sessions := sessions + [session];
      currentSessionIndex := |sessions| - 1;
    }

    /** create_new_session with the chat on screen emptied together with the display. */
    method CreateFreshSession(now: string, selectedModel: string)
      requires Valid()
      modifies this`sessions, this`currentSessionIndex, this`messages
      ensures sessions == old(sessions) + [Session(SessionName(|old(sessions)| + 1), now, [], selectedModel)]
      ensures currentSessionIndex == |old(sessions)|
      ensures messages == []
      ensures Synced()
    {
      CreateNewSession(now, selectedModel);
      messages := [];
    }

    /**
     * load_session: the session at `index` becomes the current one and its
     * messages are copied into `messages`; a session with a model asks the
     * selector for it (`selectModel`).
     */
    method LoadSession(index: nat) returns (selectModel: Option<string>)
      requires Valid() && index < |sessions|
      modifies this`currentSessionIndex, this`messages
      ensures currentSessionIndex == index
      ensures messages == sessions[index].messages
      ensures selectModel == if sessions[index].model != "" then Some(sessions[index].model) else None
      ensures Synced()
    {
      currentSessionIndex := index;
      var session := sessions[index];
      selectModel := if session.model != "" then Some(session.model) else None;
      messages := session.messages;
    }

    /**
     * rename_session: `item` is the list row clicked, or else the current
     * row (None when there is neither); `newName` and `ok` are what the
     * input dialog returns. Only that session's name changes, and only to a
     * name that does not strip to nothing.
     */
    method RenameSession(item: Option<nat>, newName: string, ok: bool)
      requires Valid() && (item.Some? ==> item.value < |sessions|)
      modifies this`sessions
      ensures if item.Some? && ok && !AllSpace(newName)
              then sessions == old(sessions)[item.value := old(sessions)[item.value].(name := Strip(newName))]
              else sessions == old(sessions)
      ensures old(Synced()) ==> Synced()
    {
      if item.None? {
        return;
      }
      var index := item.value;
      var name := Strip(newName);
      if ok && name != [] {
        sessions := sessions[index := sessions[index].(name := name)];
      }
    }

    /**
     * delete_session, `confirmed` being the Yes of the question box: the
     * current session is removed; a fresh session replaces the last one,
     * otherwise the session before the removed one (or the first) is loaded.
     */
    method DeleteSession(confirmed: bool, now: string, selectedModel: string) returns (selectModel: Option<string>)
      requires Valid()
      modifies this`sessions, this`currentSessionIndex, this`messages
      ensures !confirmed || old(currentSessionIndex) < 0 ==> unchanged(this)
      ensures confirmed && old(currentSessionIndex) >= 0 ==>
                var i := old(currentSessionIndex);
                var rest := old(sessions)[..i] + old(sessions)[i + 1..];
                if rest == [] then
                  && sessions == [Session(SessionName(1), now, [], selectedModel)]
                  && currentSessionIndex == 0 && messages == []
                else
                  && sessions == rest
                  && currentSessionIndex == Max(0, i - 1)
                  && messages == rest[currentSessionIndex].messages
      ensures selectModel == if confirmed && old(currentSessionIndex) >= 0 && |old(sessions)| > 1
                                && sessions[currentSessionIndex].model != ""
                             then Some(sessions[currentSessionIndex].model) else None
      ensures confirmed && old(currentSessionIndex) >= 0 ==> Synced()
      ensures Valid()
    {
      selectModel := None;
      if currentSessionIndex < 0 || !confirmed {
        return;
      }
      var i := currentSessionIndex;
      sessions := sessions[..i] + sessions[i + 1..];
      if |sessions| == 0 {
        currentSessionIndex := -1;
        CreateFreshSession(now, selectedModel);
      } else {
        currentSessionIndex := Max(0, i - 1);
        selectModel := LoadSession(currentSessionIndex);
      }
    }

    /** clear_chat: the chat on screen and the current session's copy of it are emptied. */
    method ClearChat()
      requires Valid()
      modifies this`messages, this`sessions
      ensures messages == []
      ensures currentSessionIndex >= 0 ==>
                sessions == old(sessions)[currentSessionIndex := old(sessions)[currentSessionIndex].(messages := [])]
      ensures currentSessionIndex < 0 ==> sessions == old(sessions)
      ensures Synced()
    {
      messages := [];
      if currentSessionIndex >= 0 {
        sessions := sessions[currentSessionIndex := sessions[currentSessionIndex].(messages := [])];
      }
    }

    /**
     * load_chat: `file` is the chat read from the chosen file, None when no
     * file was chosen or it could not be read. A loaded chat is added as a
     * new session and loaded.
     */
    method LoadChat(file: Option<ChatFile>, now: string) returns (selectModel: Option<string>)
      requires Valid()
      modifies this`sessions, this`currentSessionIndex, this`messages
      ensures file.None? ==> unchanged(this) && selectModel.None?
      ensures file.Some? ==>
                && sessions == old(sessions) + [Session(LoadedName(file.value.messages), now,
                                                        file.value.messages, file.value.model)]
                && currentSessionIndex == |old(sessions)|
                && messages == file.value.messages
                && selectModel == if file.value.model != "" then Some(file.value.model) else None
      ensures Synced() || file.None?
    {
      if file.None? {
        return None;
      }
      var data := file.value;
      var session := Session(LoadedName(data.messages), now, data.messages, data.model);
      sessions := sessions + [session];
      currentSessionIndex := |sessions| - 1;
      selectModel := LoadSession(currentSessionIndex);
    }

    /**
     * update_model_label: the label names the selected model, or "None";
     * the current session remembers the model.
     */
    method UpdateModelLabel(model: string) returns (caption: string)
      requires Valid()
      modifies this`sessions
      ensures caption == "Model: " + (if model != "" then model else "None")
      ensures currentSessionIndex >= 0 ==>
                sessions == old(sessions)[currentSessionIndex := old(sessions)[currentSessionIndex].(model := model)]
      ensures currentSessionIndex < 0 ==> sessions == old(sessions)
      ensures old(Synced()) ==> Synced()
    {
      caption := "Model: " + (if model != "" then model else "None");
      if currentSessionIndex >= 0 {
        sessions := sessions[currentSessionIndex := sessions[currentSessionIndex].(model := model)];
      }
    }
  }

  /**
   * One exchange: send_message starts a worker, the worker reads `lines`
   * (stop() landing at iteration `stopAt`), and each signal it emits reaches
   * its slot in order. The answer kept is the concatenation of the
   * `response` fields the worker read; an empty answer adds no message.
   */
  method Converse(gui: ChatbotGui, input: string, model: string, lines: seq<Workers.Line>, stopAt: nat)
    returns (sent: bool)
    requires gui.Valid()
    modifies gui
    ensures sent <==> !AllSpace(input) && model != ""
    ensures !sent ==> && gui.messages == old(gui.messages) && gui.sessions == old(gui.sessions)
                      && gui.currentSessionIndex == old(gui.currentSessionIndex)
                      && gui.currentResponse == old(gui.currentResponse) && gui.busy == old(gui.busy)
                      && gui.worker == old(gui.worker)
    ensures sent ==>
              var answer := Workers.Concat(Workers.Responses(lines[..Workers.Processed(lines, stopAt)]));
              && gui.messages == old(gui.messages) + [Message(User, Strip(input))]
                                 + (if answer != "" then [Message(Assistant, answer)] else [])
              && gui.currentResponse == "" && !gui.busy && gui.Synced()
    ensures sent ==>
              var answer := Workers.Concat(Workers.Responses(lines[..Workers.Processed(lines, stopAt)]));
              var asked := old(gui.messages) + [Message(User, Strip(input))];
              var i := old(gui.currentSessionIndex);
              var mid := WithMessages(old(gui.sessions), i, asked);
              && gui.currentSessionIndex == i
              && gui.sessions == if answer != "" then WithMessages(mid, i, gui.messages) else mid
    ensures sent ==> && gui.worker != null && fresh(gui.worker)
                     && gui.worker.model == model && gui.worker.prompt == Strip(input)
                     && gui.worker.emitted == Workers.GenerationEvents(lines, stopAt)
  {
    sent := gui.SendMessage(input, model);
    if sent {
      ghost var asked := gui.messages;
      ghost var mid := gui.sessions;
      assert asked == old(gui.messages) + [Message(User, Strip(input))];
      assert mid == WithMessages(old(gui.sessions), old(gui.currentSessionIndex), asked);
      AnswerPrompt(gui, lines, stopAt);
    }
  }

  /**
   * After send_message: the worker it started reads `lines`, and its
   * signals reach their slots in order. The answer kept is the
   * concatenation of the `response` fields the worker read.
   */
  method AnswerPrompt(gui: ChatbotGui, lines: seq<Workers.Line>, stopAt: nat)
    requires gui.Synced() && gui.currentResponse == ""
    requires gui.messages != [] && gui.messages[|gui.messages| - 1].role == User
    requires gui.worker != null && gui.worker.isRunning && gui.worker.emitted == []
    modifies gui`messages, gui`sessions, gui`currentResponse, gui`busy, gui.worker`isRunning, gui.worker`emitted
    ensures var answer := Workers.Concat(Workers.Responses(lines[..Workers.Processed(lines, stopAt)]));
            && gui.messages == old(gui.messages) + (if answer != "" then [Message(Assistant, answer)] else [])
            && gui.sessions == if answer != "" then WithMessages(old(gui.sessions), gui.currentSessionIndex, gui.messages)
                               else old(gui.sessions)
    ensures gui.currentResponse == "" && !gui.busy && gui.Synced()
    ensures gui.worker.emitted == Workers.GenerationEvents(lines, stopAt)
  {
    var worker := gui.worker;
    RunThread(worker, lines, stopAt);
    var events := worker.emitted;
    Workers.GenerationTerminatesOnce(lines, stopAt);
    Workers.TokensAreResponses(lines, stopAt);
    ReceiveAnswer(gui, events);
  }

  /** The started worker's thread runs over the reply `lines`; the request body it posts plays no part here. */
  method RunThread(worker: Workers.OllamaWorker, lines: seq<Workers.Line>, stopAt: nat)
    requires worker.isRunning && worker.emitted == []
    modifies worker`isRunning, worker`emitted
    ensures worker.emitted == Workers.GenerationEvents(lines, stopAt)
  {
    var _ := worker.Run(Workers.Stream(lines), stopAt);
  }

  /**
   * The signals of one run reach their slots in order, after send_message:
   * the tokens accumulate in current_response (their concatenation), and
   * the terminal signal keeps that text as an assistant message when it is
   * not empty.
   */
  method ReceiveAnswer(gui: ChatbotGui, events: seq<Workers.GenerationEvent>)
    requires gui.Synced() && Workers.Terminated(events)
    requires gui.currentResponse == "" && gui.messages != [] && gui.messages[|gui.messages| - 1].role == User
    modifies gui`messages, gui`sessions, gui`currentResponse, gui`busy
    ensures var answer := Workers.Concat(Workers.Tokens(events));
            && gui.messages == old(gui.messages) + (if answer != "" then [Message(Assistant, answer)] else [])
            && gui.sessions == if answer != "" then WithMessages(old(gui.sessions), gui.currentSessionIndex, gui.messages)
                               else old(gui.sessions)
    ensures gui.currentResponse == "" && !gui.busy && gui.Synced()
  {
    var j := 0;
    while j < |events| - 1
      invariant 0 <= j <= |events| - 1
      invariant gui.Synced() && gui.messages == old(gui.messages) && gui.sessions == old(gui.sessions)
      invariant gui.currentResponse == Workers.Concat(Workers.Tokens(events[..j]))
    {
      AccumulatorStep(events, j);
      gui.Deliver(events[j]);
      j := j + 1;
    }
    TerminalAddsNoToken(events);
    gui.Deliver(events[|events| - 1]);
  }

  /** A token signal grows the concatenated tokens by its text. */
  lemma AccumulatorStep(events: seq<Workers.GenerationEvent>, j: nat)
    requires j < |events| && events[j].Token?
    ensures Workers.Concat(Workers.Tokens(events[..j + 1])) == Workers.Concat(Workers.Tokens(events[..j])) + events[j].text
  {
    var text := events[j].text;
    var before := Workers.Tokens(events[..j]);
    assert events[..j + 1] == events[..j] + [events[j]];
    Workers.TokensOfConcat(events[..j], [events[j]]);
    assert Workers.Tokens([events[j]]) == [text] + Workers.Tokens([events[j]][1..]);
    assert Workers.Tokens(events[..j + 1]) == before + [text];
    Workers.ConcatOfConcat(before, [text]);
    assert Workers.Concat([text]) == text + Workers.Concat([text][1..]);
    assert Workers.Concat([text]) == text;
  }

  /** The terminal signal of a run carries no token: the tokens before it are all of them. */
  lemma TerminalAddsNoToken(events: seq<Workers.GenerationEvent>)
    requires Workers.Terminated(events)
    ensures Workers.Tokens(events[..|events| - 1]) == Workers.Tokens(events)
  {
    var last := events[|events| - 1];
    assert events == events[..|events| - 1] + [last];
    Workers.TokensOfConcat(events[..|events| - 1], [last]);
    assert Workers.Tokens([last]) == Workers.Tokens([]);
  }

  /**
   * With create_new_session as written, the second chat inherits the first
   * chat's messages: its first message is stored after them and does not
   * name it.
   */
  method NewChatKeepsOldMessages() returns (stored: seq<Message>, name: string)
    ensures stored == [Message(User, "first"), Message(User, "second")]
    ensures name == "Chat 2"
  {
    var gui := new ChatbotGui("10:00");
    gui.AddMessage("first", true);
    gui.CreateNewSession("10:05", "llama3.2");
    gui.AddMessage("second", true);
    stored := gui.sessions[1].messages;
    name := gui.sessions[1].name;
  }

  /** With the fresh session, the first message of a new chat is its only message and its name. */
  method FreshChatTakesFirstMessage(gui: ChatbotGui, now: string, model: string, text: string)
    requires gui.Valid()
    modifies gui
    ensures |gui.sessions| == |old(gui.sessions)| + 1
    ensures gui.sessions[|gui.sessions| - 1] == Session(Preview(text), now, [Message(User, text)], model)
    ensures gui.Synced()
  {
    gui.CreateFreshSession(now, model);
    gui.AddMessage(text, true);
  }

  /**
   * Clearing the chat while an answer streams in makes finish_response, as
   * written, read messages[-1] of an empty list.
   */
  method ClearingMidStreamCrashes() returns (crashed: bool)
    ensures crashed
  {
    var gui := new ChatbotGui("10:00");
    gui.AddMessage("hello", true);
    gui.UpdateResponse("Hel");
    gui.ClearChat();
    crashed := gui.FinishResponse();
  }

  /** The guarded finish drops an answer whose chat was cleared, and the window is ready again. */
  method ClearingMidStreamIsSafe() returns (messages: seq<Message>, busy: bool)
    ensures messages == [] && !busy
  {
    var gui := new ChatbotGui("10:00");
    gui.AddMessage("hello", true);
    gui.UpdateResponse("Hel");
    gui.ClearChat();
    gui.FinishResponseGuarded();
    messages, busy := gui.messages, gui.busy;
  }
}

/**
 * The chat history of the older single-page client (frontend/js/script.js):
 * the module-level `chatHistory` list and `currentChatId`, chat creation,
 * `loadChat`, `saveMessageToHistory` and the input guard of `sendQuestion`.
 * The DOM rendering around them is not modelled. `Date.now()` and
 * `new Date()` are one clock parameter; the ISO date string is that integer.
 */
module LegacyScript {
  import opened Wrappers
  import opened Text
  import ChatStates

  /** A saved message: `{sender, text, type, sources}` (`type` is spelled `kind`). */
  datatype LegacyMessage = LegacyMessage(sender: string, text: string, kind: string, sources: Option<seq<string>>)

  datatype LegacyChat = LegacyChat(id: string, title: string, date: int, messages: seq<LegacyMessage>)

  /** The two module-level variables. */
  datatype History = History(chatHistory: seq<LegacyChat>, currentChatId: Option<string>)

  /** JavaScript falsiness of `currentChatId`: null or the empty string. */
  predicate NoCurrent(current: Option<string>) {
    current.None? || current.value == ""
  }

  /** The chat `createNewChat` makes at `now`. */
  function NewChat(now: nat): (c: LegacyChat)
    ensures c.id == ChatStates.ChatId(now) && c.title == ChatStates.Placeholder && c.messages == []
  {
    LegacyChat(ChatStates.ChatId(now), ChatStates.Placeholder, now, [])
  }

  /** `createNewChat` (data part): the new chat goes last and becomes current. */
  function WithNewChat(h: History, now: nat): (r: History)
    ensures r.chatHistory == h.chatHistory + [NewChat(now)]
    ensures r.currentChatId == Some(NewChat(now).id)
  {
    History(h.chatHistory + [NewChat(now)], Some(NewChat(now).id))
  }

  /** `chatHistory.find(c => c.id === id)`, as the index of the first match. */
  function FindIndex(chats: seq<LegacyChat>, id: string): (r: Option<nat>)
    ensures r.None? <==> forall i | 0 <= i < |chats| :: chats[i].id != id
    ensures r.Some? ==>
      r.value < |chats| && chats[r.value].id == id && forall j | 0 <= j < r.value :: chats[j].id != id
  {
    if chats == [] then None
    else if chats[0].id == id then Some(0)
    else
      var r := FindIndex(chats[1..], id);
      if r.Some? then Some(r.value + 1) else None
  }

  /** `loadChat`: an unknown id changes nothing; a known id becomes current. */
  function WithLoadedChat(h: History, id: string): (r: History)
    ensures r.chatHistory == h.chatHistory
    ensures FindIndex(h.chatHistory, id).None? ==> r == h
    ensures FindIndex(h.chatHistory, id).Some? ==> r.currentChatId == Some(id)
  {
    if FindIndex(h.chatHistory, id).None? then h else h.(currentChatId := Some(id))
  }

  /** `messages.filter(m => m.type === 'user').length`. */
  function UserCount(ms: seq<LegacyMessage>): (n: nat)
    ensures n <= |ms|
    ensures n == 0 <==> forall i | 0 <= i < |ms| :: ms[i].kind != "user"
  {
    if ms == [] then 0
    else UserCount(ms[..|ms| - 1]) + (if ms[|ms| - 1].kind == "user" then 1 else 0)
  }

  /** `text.substring(0, 30) + (text.length > 30 ? '...' : '')`. */
  function LegacyTitle(text: string): (r: string)
    ensures |text| <= 30 ==> r == text
    ensures |text| > 30 ==> r == text[..30] + "..."
  {
    (if |text| <= 30 then text else text[..30]) + (if |text| > 30 then "..." else "")
  }

  /** Both clients derive the same title from the same text. */
  lemma TitlesAgree(text: string)
    ensures LegacyTitle(text) == ChatStates.DerivedTitle(text)
  {
  }

  /** The title rule of `saveMessageToHistory`: a chat's first user-type message names it. */
  predicate NamesChat(c: LegacyChat, m: LegacyMessage) {
    m.kind == "user" && UserCount(c.messages) == 0
  }

  /** One chat after a message is saved to it. */
  function SavedTo(c: LegacyChat, m: LegacyMessage, now: int): (r: LegacyChat)
    ensures r.id == c.id && r.date == now && r.messages == c.messages + [m]
    ensures NamesChat(c, m) ==> r.title == LegacyTitle(m.text)
    ensures !NamesChat(c, m) ==> r.title == c.title
  {
    var messages := c.messages + [m];
    assert messages[..|messages| - 1] == c.messages;
    var title := if m.kind == "user" && UserCount(messages) == 1 then LegacyTitle(m.text) else c.title;
    c.(messages := messages, title := title, date := now)
  }

  /**
   * `saveMessageToHistory`: creates a chat first when none is current, then
   * appends the message to the current chat (if it exists) and refreshes its
   * date; every other chat is unchanged.
   */
  function SaveMessage(h: History, m: LegacyMessage, now: nat): (r: History)
    ensures NoCurrent(h.currentChatId) ==> r.currentChatId == Some(NewChat(now).id)
    ensures !NoCurrent(h.currentChatId) ==> r.currentChatId == h.currentChatId
    ensures var base := if NoCurrent(h.currentChatId) then WithNewChat(h, now) else h;
      |r.chatHistory| == |base.chatHistory|
      && match FindIndex(base.chatHistory, base.currentChatId.value)
         case None => r.chatHistory == base.chatHistory
         case Some(i) =>
           && r.chatHistory[i] == SavedTo(base.chatHistory[i], m, now)
           && forall j | 0 <= j < |r.chatHistory| && j != i :: r.chatHistory[j] == base.chatHistory[j]
  {
    var base := if NoCurrent(h.currentChatId) then WithNewChat(h, now) else h;
    match FindIndex(base.chatHistory, base.currentChatId.value)
    case None => base
    case Some(i) => base.(chatHistory := base.chatHistory[i := SavedTo(base.chatHistory[i], m, now)])
  }

  /** With no current chat the message lands in a brand-new chat, which it names if it is a user message. */
  lemma SaveWithoutCurrent(h: History, m: LegacyMessage, now: nat)
    requires NoCurrent(h.currentChatId)
    requires forall i | 0 <= i < |h.chatHistory| :: h.chatHistory[i].id != NewChat(now).id
    ensures var r := SaveMessage(h, m, now);
      && r.chatHistory[..|h.chatHistory|] == h.chatHistory
      && r.chatHistory[|h.chatHistory|] == SavedTo(NewChat(now), m, now)
      && r.chatHistory[|h.chatHistory|].messages == [m]
      && (m.kind == "user" ==> r.chatHistory[|h.chatHistory|].title == LegacyTitle(m.text))
  {
    var base := WithNewChat(h, now);
    var r := SaveMessage(h, m, now);
    var k := FindIndex(base.chatHistory, base.currentChatId.value);
    assert base.chatHistory[|h.chatHistory|].id == base.currentChatId.value;
    assert k.Some?;
    assert r.chatHistory[..|h.chatHistory|] == h.chatHistory;
  }

  /**
   * Where the two clients differ: the older one names a chat from its first
   * user message whatever the title is and however many other messages it
   * has, while the store names it only while it is untitled and empty: a
   * store chat with the same title keeps it whatever messages it holds.
   */
  lemma TitleRulesDiffer(c: LegacyChat, m: LegacyMessage, now: int)
    requires c.title != ChatStates.Placeholder && c.messages != [] && UserCount(c.messages) == 0
    requires m.kind == "user"
    ensures SavedTo(c, m, now).title == LegacyTitle(m.text)
    ensures forall msgs: seq<ChatStates.ChatApi.Message>, msg: ChatStates.ChatApi.Message ::
      ChatStates.WithMessage(ChatStates.Chat(c.id, c.title, msgs, 0, 0), msg, now).title == c.title
  {
  }

  /** The body `sendQuestion` posts: `question`, `stream: false`, and `model` only when one is selected. */
  datatype LegacyRequest = LegacyRequest(question: string, stream: bool, model: Option<string>)

  /**
   * The history object: the two module-level variables, what was last
   * written to local storage, and whether loading threw.
   */
  class LegacyHistory {
    var chatHistory: seq<LegacyChat>
    var currentChatId: Option<string>
    ghost var saved: Option<seq<LegacyChat>>
    /**
     * `JSON.parse` threw while loading. Nothing catches it, so `init` stops
     * there: no chat is created and the page is not set up.
     */
    var loadFailed: bool

    /**
     * `loadChatHistory`: the parsed stored list when something is stored,
     * no current chat. Stored text that does not parse throws, and the
     * history keeps its initial empty value.
     */
    constructor(stored: Option<string>, parse: string -> Option<seq<LegacyChat>>)
      ensures loadFailed <==> stored.Some? && stored.value != "" && parse(stored.value).None?
      ensures chatHistory == (if stored.Some? && stored.value != "" && parse(stored.value).Some?
                              then parse(stored.value).value else [])
      ensures currentChatId.None? && saved.None?
    {
      chatHistory := [];
      loadFailed := false;
      if stored.Some? && stored.value != "" {
        var parsed := parse(stored.value);
        if parsed.None? {
          loadFailed := true;
        } else {
          chatHistory := parsed.value;
        }
      }
      currentChatId := None;
      saved := None;
    }

    function Snapshot(): History
      reads this
    {
      History(chatHistory, currentChatId)
    }

    method CreateNewChat(now: nat)
      modifies this`chatHistory, this`currentChatId, this`saved
      ensures Snapshot() == WithNewChat(old(Snapshot()), now)
      ensures saved == Some(chatHistory)
    {
      chatHistory := chatHistory + [NewChat(now)];
      currentChatId := Some(NewChat(now).id);
      saved := Some(chatHistory);
    }

    method LoadChat(id: string)
      modifies this`chatHistory, this`currentChatId, this`saved
      ensures Snapshot() == WithLoadedChat(old(Snapshot()), id)
      ensures saved == old(saved)
    {
      var i := FindIndex(chatHistory, id);
      if i.None? {
        return;
      }
      currentChatId := Some(id);
    }

    method SaveMessageToHistory(sender: string, text: string, kind: string, sources: Option<seq<string>>, now: nat)
      modifies this`chatHistory, this`currentChatId, this`saved
      ensures Snapshot() == SaveMessage(old(Snapshot()), LegacyMessage(sender, text, kind, sources), now)
      ensures NoCurrent(old(currentChatId)) || FindIndex(chatHistory, currentChatId.value).Some?
              ==> saved == Some(chatHistory)
      ensures !NoCurrent(old(currentChatId)) && FindIndex(old(chatHistory), old(currentChatId).value).None?
              ==> saved == old(saved)
    {
      if currentChatId.None? || currentChatId.value == "" {
        CreateNewChat(now);
      }
      var i := FindIndex(chatHistory, currentChatId.value);
      if i.None? {
        return;
      }
      var chat := chatHistory[i.value];
      var messages := chat.messages + [LegacyMessage(sender, text, kind, sources)];
      assert messages[..|messages| - 1] == chat.messages;
      if kind == "user" && UserCount(messages) == 1 {
        chat := chat.(title := LegacyTitle(text));
      }
      chat := chat.(messages := messages, date := now);
      chatHistory := chatHistory[i.value := chat];
      saved := Some(chatHistory);
    }

    /**
     * `sendQuestion` up to the request: blank input does nothing; otherwise
     * the trimmed question is saved as a user message and the request body
     * carries it, `stream: false` and the model only when one is selected.
     */
    method SendQuestion(input: string, selectedModel: string, now: nat) returns (request: Option<LegacyRequest>)
      modifies this`chatHistory, this`currentChatId, this`saved
      ensures request.None? <==> IsBlank(input)
      ensures request.None? ==> Snapshot() == old(Snapshot()) && saved == old(saved)
      ensures request.Some? ==>
        && request.value == LegacyRequest(Trim(input, IsJsSpace), false,
                                          if selectedModel == "" then None else Some(selectedModel))
        && Snapshot() == SaveMessage(old(Snapshot()), LegacyMessage("あなた", Trim(input, IsJsSpace), "user", None), now)
    {
      var question := Trim(input, IsJsSpace);
      if question == "" {
        return None;
      }
      SaveMessageToHistory("あなた", question, "user", None, now);
      var model := if selectedModel != "" then Some(selectedModel) else None;
      request := Some(LegacyRequest(question, false, model));
    }
  }
}

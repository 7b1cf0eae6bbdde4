/**
 * The conversation state (frontend-svelte/src/lib/stores/chatStore.ts): a
 * `{chats, currentChatId}` state, the pure transforms each store operation
 * applies with `update`, and the `Store` object that installs each new state
 * and saves it. `Date.now()` is a parameter; local storage is the ghost field
 * `saved`; `JSON.parse` is an abstract function that may fail.
 */
module ChatStates {
  import opened Wrappers
  import opened Text
  import opened ChatApi

  datatype Chat = Chat(id: string, title: string, messages: seq<Message>, createdAt: int, updatedAt: int)

  datatype ChatState = ChatState(chats: seq<Chat>, currentChatId: Option<string>)

  /** The title of a chat that has not been named yet ("new chat"). */
  const Placeholder: string := "新しいチャット"

  /** How many characters of the first user message become the title. */
  const TitleLimit: nat := 30

  /** No chats and no current chat. */
  const EmptyState := ChatState([], None)

  /** The id of a chat created at `now`: "chat_" followed by the time in decimal. */
  function ChatId(now: nat): (r: string)
    ensures StartsWith(r, "chat_") && |r| > 5
  {
    "chat_" + DecimalString(now)
  }

  /** Chats created at different times get different ids. */
  lemma ChatIdInjective(a: nat, b: nat)
    requires ChatId(a) == ChatId(b)
    ensures a == b
  {
    assert ChatId(a)[5..] == DecimalString(a);
    assert ChatId(b)[5..] == DecimalString(b);
    DecimalInjective(a, b);
  }

  /** The title taken from a first user message: at most 30 characters, then "..." if cut. */
  function DerivedTitle(content: string): (r: string)
    ensures |content| <= TitleLimit ==> r == content
    ensures |content| > TitleLimit ==>
      |r| == TitleLimit + 3 && r[..TitleLimit] == content[..TitleLimit] && r[TitleLimit..] == "..."
  {
    if |content| > TitleLimit then content[..TitleLimit] + "..." else content
  }

  /**
   * `loadInitialState`: the parsed stored state, or the empty state when
   * nothing (or an empty string) is stored or parsing fails.
   */
  function LoadInitialState(stored: Option<string>, parse: string -> Option<ChatState>): (r: ChatState)
    ensures stored.None? || stored == Some("") ==> r == EmptyState
    ensures stored.Some? && stored.value != "" && parse(stored.value).None? ==> r == EmptyState
    ensures r == EmptyState || (stored.Some? && parse(stored.value) == Some(r))
  {
    if stored.None? || stored.value == "" then EmptyState
    else parse(stored.value).GetOr(EmptyState)
  }

  /** `createNewChat`: a fresh untitled chat goes first and becomes current. */
  function CreateNewChat(s: ChatState, now: nat): (r: ChatState)
    ensures |r.chats| == |s.chats| + 1 && r.chats[1..] == s.chats
    ensures r.chats[0] == Chat(ChatId(now), Placeholder, [], now, now)
    ensures r.currentChatId == Some(r.chats[0].id)
  {
    var chat := Chat(ChatId(now), Placeholder, [], now, now);
    ChatState([chat] + s.chats, Some(chat.id))
  }

  /** `selectChat`: only the current id changes, whether or not a chat has it. */
  function SelectChat(s: ChatState, id: string): (r: ChatState)
    ensures r.chats == s.chats && r.currentChatId == Some(id)
  {
    s.(currentChatId := Some(id))
  }

  /** `chats.map(chat => chat.id === id ? f(chat) : chat)`. */
  function MapChat(chats: seq<Chat>, id: string, f: Chat -> Chat): (r: seq<Chat>)
    ensures |r| == |chats|
    ensures forall i | 0 <= i < |chats| :: r[i] == if chats[i].id == id then f(chats[i]) else chats[i]
  {
    seq(|chats|, i requires 0 <= i < |chats| => if chats[i].id == id then f(chats[i]) else chats[i])
  }

  /** No chat carries `id`. */
  predicate Unknown(chats: seq<Chat>, id: string) {
    forall i | 0 <= i < |chats| :: chats[i].id != id
  }

  /** A map over chats with an id no chat carries changes nothing. */
  lemma MapUnknown(chats: seq<Chat>, id: string, f: Chat -> Chat)
    requires Unknown(chats, id)
    ensures MapChat(chats, id, f) == chats
  {
  }

  /** The title rule of `addMessage`: only an untitled chat's first message, sent by the user, names it. */
  predicate NamesChat(c: Chat, m: Message) {
    c.title == Placeholder && m.role == User && c.messages == []
  }

  /** One chat after `addMessage`. */
  function WithMessage(c: Chat, m: Message, now: int): (r: Chat)
    ensures r.id == c.id && r.createdAt == c.createdAt && r.updatedAt == now
    ensures r.messages == c.messages + [m]
    ensures NamesChat(c, m) ==> r.title == DerivedTitle(m.content)
    ensures !NamesChat(c, m) ==> r.title == c.title
  {
    var title := if c.title == Placeholder && m.role == User && |c.messages + [m]| == 1
                 then DerivedTitle(m.content) else c.title;
    c.(messages := c.messages + [m], updatedAt := now, title := title)
  }

  /**
   * `addMessage`: the chats with this id get the message at the end (and
   * possibly a title); every other chat and the current id are unchanged.
   */
  function AddMessage(s: ChatState, id: string, m: Message, now: int): (r: ChatState)
    ensures r.currentChatId == s.currentChatId && |r.chats| == |s.chats|
    ensures forall i | 0 <= i < |s.chats| ::
      if s.chats[i].id == id then r.chats[i] == WithMessage(s.chats[i], m, now) else r.chats[i] == s.chats[i]
    ensures Unknown(s.chats, id) ==> r == s
  {
    s.(chats := MapChat(s.chats, id, c => WithMessage(c, m, now)))
  }

  /** The title changes at most once: a chat that already has messages keeps its title. */
  lemma TitleIsDerivedOnce(c: Chat, m: Message, now: int)
    requires c.messages != []
    ensures WithMessage(c, m, now).title == c.title
  {
  }

  /** Replaces the last message with `g` of it; an empty list stays empty. */
  function UpdateLast(ms: seq<Message>, g: Message -> Message): (r: seq<Message>)
    ensures |r| == |ms|
    ensures ms != [] ==> r[..|ms| - 1] == ms[..|ms| - 1] && r[|ms| - 1] == g(ms[|ms| - 1])
  {
    if ms == [] then ms else ms[..|ms| - 1] + [g(ms[|ms| - 1])]
  }

  /** The chat-level step shared by the three `updateLastMessage*` operations. */
  function WithLastMessage(c: Chat, g: Message -> Message, now: int): (r: Chat)
    ensures r.id == c.id && r.title == c.title && r.createdAt == c.createdAt && r.updatedAt == now
    ensures |r.messages| == |c.messages|
    ensures c.messages != [] ==>
      r.messages[..|c.messages| - 1] == c.messages[..|c.messages| - 1]
      && r.messages[|c.messages| - 1] == g(c.messages[|c.messages| - 1])
  {
    c.(messages := UpdateLast(c.messages, g), updatedAt := now)
  }

  function SetContent(content: string): (g: Message -> Message)
    ensures forall m :: g(m).content == content && g(m).(content := m.content) == m
  {
    (m: Message) => m.(content := content)
  }

  function SetSources(sources: seq<SourceInfo>, qualityScore: real): (g: Message -> Message)
    ensures forall m :: g(m).sources == Some(sources) && g(m).qualityScore == Some(qualityScore)
                        && g(m).(sources := m.sources, qualityScore := m.qualityScore) == m
  {
    (m: Message) => m.(sources := Some(sources), qualityScore := Some(qualityScore))
  }

  function SetSpeed(responseTime: real, generationTime: real, speed: real): (g: Message -> Message)
    ensures forall m :: g(m).responseTime == Some(responseTime) && g(m).generationTime == Some(generationTime)
                        && g(m).speed == Some(speed)
                        && g(m).(responseTime := m.responseTime, generationTime := m.generationTime, speed := m.speed) == m
  {
    (m: Message) => m.(responseTime := Some(responseTime), generationTime := Some(generationTime), speed := Some(speed))
  }

  /** `updateLastMessage`: only the content of the last message of the chats with this id changes. */
  function UpdateLastMessage(s: ChatState, id: string, content: string, now: int): (r: ChatState)
    ensures r.currentChatId == s.currentChatId && |r.chats| == |s.chats|
    ensures forall i | 0 <= i < |s.chats| ::
      if s.chats[i].id == id then r.chats[i] == WithLastMessage(s.chats[i], SetContent(content), now)
      else r.chats[i] == s.chats[i]
    ensures Unknown(s.chats, id) ==> r == s
  {
    s.(chats := MapChat(s.chats, id, c => WithLastMessage(c, SetContent(content), now)))
  }

  /** `updateLastMessageSources`: only `sources` and `qualityScore` of the last message change. */
  function UpdateLastMessageSources(s: ChatState, id: string, sources: seq<SourceInfo>,
                                    qualityScore: real, now: int): (r: ChatState)
    ensures r.currentChatId == s.currentChatId && |r.chats| == |s.chats|
    ensures forall i | 0 <= i < |s.chats| ::
      if s.chats[i].id == id then r.chats[i] == WithLastMessage(s.chats[i], SetSources(sources, qualityScore), now)
      else r.chats[i] == s.chats[i]
    ensures Unknown(s.chats, id) ==> r == s
  {
    s.(chats := MapChat(s.chats, id, c => WithLastMessage(c, SetSources(sources, qualityScore), now)))
  }

  /** `updateLastMessageSpeed`: only the three timing fields of the last message change. */
  function UpdateLastMessageSpeed(s: ChatState, id: string, responseTime: real, generationTime: real,
                                  speed: real, now: int): (r: ChatState)
    ensures r.currentChatId == s.currentChatId && |r.chats| == |s.chats|
    ensures forall i | 0 <= i < |s.chats| ::
      if s.chats[i].id == id
      then r.chats[i] == WithLastMessage(s.chats[i], SetSpeed(responseTime, generationTime, speed), now)
      else r.chats[i] == s.chats[i]
    ensures Unknown(s.chats, id) ==> r == s
  {
    s.(chats := MapChat(s.chats, id, c => WithLastMessage(c, SetSpeed(responseTime, generationTime, speed), now)))
  }

  /**
   * For a chat the update reaches: the message count is kept, every message
   * but the last is kept, and the last keeps every field except the content.
   */
  lemma UpdateLastMessageKeepsOthers(c: Chat, content: string, now: int)
    ensures var r := WithLastMessage(c, SetContent(content), now);
      && |r.messages| == |c.messages|
      && (c.messages == [] ==> r.messages == [])
      && (c.messages != [] ==>
            && r.messages[..|c.messages| - 1] == c.messages[..|c.messages| - 1]
            && r.messages[|c.messages| - 1].content == content
            && r.messages[|c.messages| - 1].(content := c.messages[|c.messages| - 1].content)
               == c.messages[|c.messages| - 1])
  {
  }

  /** `updateLastMessageSources` touches only `sources` and `qualityScore` of the last message. */
  lemma UpdateSourcesKeepsOthers(c: Chat, sources: seq<SourceInfo>, qualityScore: real, now: int)
    requires c.messages != []
    ensures var r := WithLastMessage(c, SetSources(sources, qualityScore), now);
      var n := |c.messages|;
      && |r.messages| == n
      && r.messages[..n - 1] == c.messages[..n - 1]
      && r.messages[n - 1].sources == Some(sources) && r.messages[n - 1].qualityScore == Some(qualityScore)
      && r.messages[n - 1].(sources := c.messages[n - 1].sources, qualityScore := c.messages[n - 1].qualityScore)
         == c.messages[n - 1]
  {
  }

  /** `updateLastMessageSpeed` touches only the three timing fields of the last message. */
  lemma UpdateSpeedKeepsOthers(c: Chat, responseTime: real, generationTime: real, speed: real, now: int)
    requires c.messages != []
    ensures var r := WithLastMessage(c, SetSpeed(responseTime, generationTime, speed), now);
      var n := |c.messages|;
      var last := c.messages[n - 1];
      && |r.messages| == n
      && r.messages[..n - 1] == c.messages[..n - 1]
      && r.messages[n - 1].responseTime == Some(responseTime)
      && r.messages[n - 1].generationTime == Some(generationTime)
      && r.messages[n - 1].speed == Some(speed)
      && r.messages[n - 1].(responseTime := last.responseTime, generationTime := last.generationTime,
                            speed := last.speed) == last
  {
  }

  /** `renameChat`: the chats with this id get the new title; nothing else changes. */
  function RenameChat(s: ChatState, id: string, title: string, now: int): (r: ChatState)
    ensures r.currentChatId == s.currentChatId && |r.chats| == |s.chats|
    ensures forall i | 0 <= i < |s.chats| ::
      if s.chats[i].id == id then r.chats[i] == s.chats[i].(title := title, updatedAt := now)
      else r.chats[i] == s.chats[i]
    ensures Unknown(s.chats, id) ==> r == s
  {
    s.(chats := MapChat(s.chats, id, (c: Chat) => c.(title := title, updatedAt := now)))
  }

  /** `chats.filter(chat => chat.id !== id)`: the other chats, in their order. */
  function RemoveChat(chats: seq<Chat>, id: string): (r: seq<Chat>)
    ensures Unknown(r, id)
    ensures |r| <= |chats|
    ensures Unknown(chats, id) ==> r == chats
  {
    if chats == [] then []
    else if chats[0].id == id then RemoveChat(chats[1..], id)
    else [chats[0]] + RemoveChat(chats[1..], id)
  }

  /** Exactly the chats with another id remain. */
  lemma {:induction false} RemoveChatMembers(chats: seq<Chat>, id: string)
    ensures forall c :: c in RemoveChat(chats, id) <==> c in chats && c.id != id
    decreases |chats|
  {
    if chats != [] {
      RemoveChatMembers(chats[1..], id);
      assert chats == [chats[0]] + chats[1..];
    }
  }

  /**
   * `deleteChat`: every chat with this id goes; if it was current, the first
   * remaining chat becomes current (or none when no chat remains).
   */
  function DeleteChat(s: ChatState, id: string): (r: ChatState)
    ensures r.chats == RemoveChat(s.chats, id)
    ensures s.currentChatId == Some(id) ==>
      r.currentChatId == (if r.chats == [] then None else Some(r.chats[0].id))
    ensures s.currentChatId != Some(id) ==> r.currentChatId == s.currentChatId
  {
    var chats := RemoveChat(s.chats, id);
    var current := if s.currentChatId == Some(id) then (if |chats| > 0 then Some(chats[0].id) else None)
                   else s.currentChatId;
    ChatState(chats, current)
  }

  /** `clearAll`: the same empty state `loadInitialState` falls back to. */
  function ClearAll(): (r: ChatState)
    ensures r.chats == [] && r.currentChatId.None?
  {
    EmptyState
  }

  /** `chats.find(chat => chat.id === id)`: the first chat with the id. */
  function FindChat(chats: seq<Chat>, id: string): (r: Option<Chat>)
    ensures r.None? <==> Unknown(chats, id)
    ensures r.Some? ==> exists i | 0 <= i < |chats| :: chats[i] == r.value && chats[i].id == id && Unknown(chats[..i], id)
  {
    if chats == [] then None
    else if chats[0].id == id then
      assert chats[..0] == [];
      Some(chats[0])
    else
      var r := FindChat(chats[1..], id);
      if r.Some? then
        var j :| 0 <= j < |chats[1..]| && chats[1..][j] == r.value && chats[1..][j].id == id && Unknown(chats[1..][..j], id);
        assert chats[..j + 1] == [chats[0]] + chats[1..][..j];
        r
      else r
  }

  /** `currentChat`: none for a missing or empty id, else the first chat with that id, if any. */
  function CurrentChat(s: ChatState): (r: Option<Chat>)
    ensures s.currentChatId.None? || s.currentChatId == Some("") ==> r.None?
    ensures s.currentChatId.Some? && s.currentChatId.value != "" ==> r == FindChat(s.chats, s.currentChatId.value)
  {
    if s.currentChatId.None? || s.currentChatId.value == "" then None
    else FindChat(s.chats, s.currentChatId.value)
  }

  /** After `createNewChat` the current chat is the new, empty, untitled one. */
  lemma CreatedChatIsCurrent(s: ChatState, now: nat)
    ensures CurrentChat(CreateNewChat(s, now)) == Some(Chat(ChatId(now), Placeholder, [], now, now))
  {
  }

  /** After `selectChat` the current chat is the first chat with that id, if any. */
  lemma SelectedChatIsCurrent(s: ChatState, id: string)
    requires id != ""
    ensures CurrentChat(SelectChat(s, id)) == FindChat(s.chats, id)
  {
  }

  /** Deleting the current chat moves the selection to the first remaining chat. */
  lemma DeleteCurrentSelectsFirst(s: ChatState, id: string)
    requires s.currentChatId == Some(id)
    ensures var r := DeleteChat(s, id);
      r.chats == [] ==> CurrentChat(r).None?
    ensures var r := DeleteChat(s, id);
      r.chats != [] && r.chats[0].id != "" ==> CurrentChat(r) == Some(r.chats[0])
  {
  }

  /** A deleted chat can never be current afterwards. */
  lemma DeletedChatIsGone(s: ChatState, id: string)
    requires id != ""
    ensures FindChat(DeleteChat(s, id).chats, id).None?
  {
  }

  /** Appending a message to the current chat keeps it current, now ending with that message. */
  lemma AddMessageToCurrent(s: ChatState, m: Message, now: int)
    requires s.currentChatId.Some? && s.currentChatId.value != ""
    requires CurrentChat(s).Some?
    ensures var id := s.currentChatId.value;
      var r := AddMessage(s, id, m, now);
      CurrentChat(r).Some? && CurrentChat(r).value.messages == CurrentChat(s).value.messages + [m]
  {
    var id := s.currentChatId.value;
    var r := AddMessage(s, id, m, now);
    var i :| 0 <= i < |s.chats| && s.chats[i] == CurrentChat(s).value && s.chats[i].id == id
             && Unknown(s.chats[..i], id);
    assert r.chats[..i] == s.chats[..i];
    FindAt(r.chats, id, i);
  }

  /** The first chat with an id is found at its index. */
  lemma {:induction false} FindAt(chats: seq<Chat>, id: string, i: nat)
    requires i < |chats| && chats[i].id == id && Unknown(chats[..i], id)
    ensures FindChat(chats, id) == Some(chats[i])
    decreases i
  {
    if i > 0 {
      assert chats[1..][..i - 1] == chats[1..i];
      assert chats[0] == chats[..i][0];
      FindAt(chats[1..], id, i - 1);
    }
  }
}

/** The store object of frontend-svelte/src/lib/stores/chatStore.ts. */
module ChatStore {
  import opened Wrappers
  import opened ChatApi
  import opened ChatStates

  /**
   * The store object: the current state and what was last saved to local
   * storage. Every operation installs the next state and saves exactly it.
   */
  class Store {
    var state: ChatState
    ghost var saved: Option<ChatState>

    /** The store starts from `loadInitialState` and has not written anything yet. */
    constructor(stored: Option<string>, parse: string -> Option<ChatState>)
      ensures state == LoadInitialState(stored, parse) && saved.None?
    {
      state := LoadInitialState(stored, parse);
      saved := None;
    }

    /** What local storage holds is the state the store shows. */
    ghost predicate InSync()
      reads this
    {
      saved == Some(state)
    }

    /** The derived `currentChat` store: the first chat carrying the current id, if any. */
    function Current(): (r: Option<Chat>)
      reads this
      ensures r.Some? ==> r.value in state.chats && state.currentChatId == Some(r.value.id)
      ensures r.None? ==> state.currentChatId.None? || state.currentChatId == Some("")
                          || Unknown(state.chats, state.currentChatId.value)
    {
      CurrentChat(state)
    }

    method CreateNewChat(now: nat)
      modifies this
      ensures state == ChatStates.CreateNewChat(old(state), now) && InSync()
    {
      state := ChatStates.CreateNewChat(state, now);
      saved := Some(state);
    }

    method SelectChat(id: string)
      modifies this
      ensures state == ChatStates.SelectChat(old(state), id) && InSync()
    {
      state := ChatStates.SelectChat(state, id);
      saved := Some(state);
    }

    method AddMessage(id: string, m: Message, now: int)
      modifies this
      ensures state == ChatStates.AddMessage(old(state), id, m, now) && InSync()
    {
      state := ChatStates.AddMessage(state, id, m, now);
      saved := Some(state);
    }

    method UpdateLastMessage(id: string, content: string, now: int)
      modifies this
      ensures state == ChatStates.UpdateLastMessage(old(state), id, content, now) && InSync()
    {
      state := ChatStates.UpdateLastMessage(state, id, content, now);
      saved := Some(state);
    }

    method UpdateLastMessageSources(id: string, sources: seq<SourceInfo>, qualityScore: real, now: int)
      modifies this
      ensures state == ChatStates.UpdateLastMessageSources(old(state), id, sources, qualityScore, now) && InSync()
    {
      state := ChatStates.UpdateLastMessageSources(state, id, sources, qualityScore, now);
      saved := Some(state);
    }

    method UpdateLastMessageSpeed(id: string, responseTime: real, generationTime: real, speed: real, now: int)
      modifies this
      ensures state == ChatStates.UpdateLastMessageSpeed(old(state), id, responseTime, generationTime, speed, now)
      ensures InSync()
    {
      state := ChatStates.UpdateLastMessageSpeed(state, id, responseTime, generationTime, speed, now);
      saved := Some(state);
    }

    method RenameChat(id: string, title: string, now: int)
      modifies this
      ensures state == ChatStates.RenameChat(old(state), id, title, now) && InSync()
    {
      state := ChatStates.RenameChat(state, id, title, now);
      saved := Some(state);
    }

    method DeleteChat(id: string)
      modifies this
      ensures state == ChatStates.DeleteChat(old(state), id) && InSync()
    {
      state := ChatStates.DeleteChat(state, id);
      saved := Some(state);
    }

    method ClearAll()
      modifies this
      ensures state == EmptyState && InSync()
    {
      state := ChatStates.ClearAll();
      saved := Some(state);
    }
  }
}

/** The chat application's store (openrouter-chat/src/store/useStore.js): the
    API key and model choice, the list of chats with their titles and
    last-update times, the messages of the open chat, and the flags the
    interface reads. Each action computes the new values and assigns them;
    the persistence calls are not modelled, and ids and clock readings are
    parameters. */
module ChatStore {
  import opened Common
  import opened Text
  import opened StreamFramer

  /** `crypto.randomUUID()`: never empty, so a present id is truthy. */
  type ChatId = s: string | |s| > 0 witness "0"

  /** One entry of the chat list; `updatedAt` is the instant in milliseconds. */
  datatype ChatMeta = ChatMeta(id: ChatId, title: string, updatedAt: int)

  datatype Role = User | Assistant

  datatype Message = Message(
    id: string,
    role: Role,
    content: string,
    model: Option<string>,
    images: seq<string>,
    timestamp: int,
    usage: Option<Usage>)

  datatype ModelInfo = ModelInfo(id: string, name: string)

  const NewChatTitle: string := "New Chat"
  const TitleLength: nat := 30
  const Ellipsis: string := "..."
  const InitialModel: string := "openai/gpt-3.5-turbo"
  const PreferredModel: string := "gpt-3.5"

  // ---------------------------------------------------------------------
  // Titles

  function Min(a: nat, b: nat): nat {
    if a <= b then a else b
  }

  /** The title taken from a first user message: its first 30 characters,
      with "..." added when something was cut off. */
  function Title(content: string): (t: string)
    ensures |t| <= TitleLength + |Ellipsis|
    ensures |content| <= TitleLength ==> t == content
    ensures |content| > TitleLength <==> (|t| == TitleLength + |Ellipsis| && t[TitleLength..] == Ellipsis)
    ensures t[..Min(|content|, TitleLength)] == content[..Min(|content|, TitleLength)]
  {
    content[..Min(|content|, TitleLength)] + (if |content| > TitleLength then Ellipsis else "")
  }

  // ---------------------------------------------------------------------
  // Ordering the chat list

  /** Most recently updated first. */
  predicate SortedByRecency(chats: seq<ChatMeta>) {
    forall i, j :: 0 <= i < j < |chats| ==> chats[i].updatedAt >= chats[j].updatedAt
  }

  /** Puts `c` before the first chat not more recent than it. */
  function Insert(c: ChatMeta, chats: seq<ChatMeta>): (r: seq<ChatMeta>)
    requires SortedByRecency(chats)
    ensures SortedByRecency(r)
    ensures multiset(r) == multiset(chats) + multiset{c}
  {
    if chats == [] || chats[0].updatedAt <= c.updatedAt then [c] + chats
    else
      var rest := Insert(c, chats[1..]);
      assert chats == [chats[0]] + chats[1..];
      InsertBelow(c, chats, rest);
      ConsSorted(chats[0], rest);
      [chats[0]] + rest
  }

  /** A chat no older than everything in a sorted list can go first. */
  lemma ConsSorted(head: ChatMeta, rest: seq<ChatMeta>)
    requires SortedByRecency(rest)
    requires forall j :: 0 <= j < |rest| ==> rest[j].updatedAt <= head.updatedAt
    ensures SortedByRecency([head] + rest)
  {
  }

  /** Everything in the insertion below the head is no more recent than it. */
  lemma InsertBelow(c: ChatMeta, chats: seq<ChatMeta>, rest: seq<ChatMeta>)
    requires SortedByRecency(chats) && |chats| > 0 && chats[0].updatedAt > c.updatedAt
    requires multiset(rest) == multiset(chats[1..]) + multiset{c}
    ensures forall j :: 0 <= j < |rest| ==> rest[j].updatedAt <= chats[0].updatedAt
  {
    forall j | 0 <= j < |rest| ensures rest[j].updatedAt <= chats[0].updatedAt {
      assert rest[j] in multiset(rest);
      if rest[j] != c {
        assert rest[j] in multiset(chats[1..]);
        var k :| 0 <= k < |chats[1..]| && chats[1..][k] == rest[j];
        assert chats[k + 1] == rest[j];
      }
    }
  }

  /** `sort((a, b) => new Date(b.updatedAt) - new Date(a.updatedAt))`: the same
      chats, most recently updated first. */
  function SortByRecency(chats: seq<ChatMeta>): (r: seq<ChatMeta>)
    ensures SortedByRecency(r)
    ensures multiset(r) == multiset(chats)
  {
    if chats == [] then []
    else
      assert chats == [chats[0]] + chats[1..];
      Insert(chats[0], SortByRecency(chats[1..]))
  }

  /** The ids of a chat list, in order. */
  function Ids(chats: seq<ChatMeta>): (r: seq<ChatId>)
    ensures |r| == |chats| && forall i :: 0 <= i < |chats| ==> r[i] == chats[i].id
  {
    seq(|chats|, i requires 0 <= i < |chats| => chats[i].id)
  }

  /** Reordering keeps the set of chat ids. */
  lemma SortKeepsIds(chats: seq<ChatMeta>)
    ensures forall id :: id in Ids(SortByRecency(chats)) <==> id in Ids(chats)
  {
    SortMembers(chats);
    SameMembersSameIds(SortByRecency(chats), chats);
  }

  /** Two lists holding the same chats hold the same ids. */
  lemma SameMembersSameIds(a: seq<ChatMeta>, b: seq<ChatMeta>)
    requires forall c :: c in a <==> c in b
    ensures forall id :: id in Ids(a) <==> id in Ids(b)
  {
    forall id | id in Ids(a) ensures id in Ids(b) {
      var i :| 0 <= i < |a| && a[i].id == id;
      assert a[i] in b;
      var j :| 0 <= j < |b| && b[j] == a[i];
    }
    forall id | id in Ids(b) ensures id in Ids(a) {
      var i :| 0 <= i < |b| && b[i].id == id;
      assert b[i] in a;
      var j :| 0 <= j < |a| && a[j] == b[i];
    }
  }

  /** Reordering keeps the chats themselves. */
  lemma SortMembers(chats: seq<ChatMeta>)
    ensures forall c :: c in SortByRecency(chats) <==> c in chats
  {
    var r := SortByRecency(chats);
    forall c ensures c in r <==> c in chats {
      assert c in r <==> c in multiset(r);
      assert c in chats <==> c in multiset(chats);
    }
  }

  // ---------------------------------------------------------------------
  // What adding a message does to the chat list

  /** `chats.map(c => c.id === id ? { ...c, title?, updatedAt: at } : c)`:
      every chat with that id is stamped with the instant, and retitled
      when a title is given; the others are untouched. */
  function Touch(chats: seq<ChatMeta>, id: ChatId, title: Option<string>, at: int): (r: seq<ChatMeta>)
    ensures |r| == |chats|
    ensures forall i :: 0 <= i < |chats| ==> (r[i] == if chats[i].id == id
      then ChatMeta(id, title.GetOr(chats[i].title), at) else chats[i])
  {
    seq(|chats|, i requires 0 <= i < |chats| =>
      if chats[i].id == id then chats[i].(title := title.GetOr(chats[i].title), updatedAt := at) else chats[i])
  }

  /** `chats.find(c => c.id === id)`. */
  function FindChat(chats: seq<ChatMeta>, id: ChatId): (r: Option<ChatMeta>)
    ensures r.Some? ==> r.value in chats && r.value.id == id
    ensures r.Some? ==> exists i :: 0 <= i < |chats| && chats[i] == r.value && forall k :: 0 <= k < i ==> chats[k].id != id
    ensures r.None? ==> forall c :: c in chats ==> c.id != id
  {
    if chats == [] then None
    else if chats[0].id == id then Some(chats[0])
    else
      var r := FindChat(chats[1..], id);
      assert forall k :: 1 <= k < |chats| ==> chats[k] == chats[1..][k - 1];
      r
  }

  /** The first user message of a chat still called "New Chat" names it. */
  predicate Retitles(chats: seq<ChatMeta>, id: ChatId, role: Role) {
    var current := FindChat(chats, id);
    current.Some? && current.value.title == NewChatTitle && role == User
  }

  /** The chat list after a message of `role` with `content` was added at
      instant `at` to the chat `id`. */
  function ChatsAfterMessage(chats: seq<ChatMeta>, id: ChatId, role: Role, content: string, at: int): seq<ChatMeta>
  {
    if Retitles(chats, id, role) then SortByRecency(Touch(chats, id, Some(Title(content)), at))
    else SortByRecency(Touch(chats, id, None, at))
  }

  /** After a message: the list is most recent first and holds the same
      chats, the ones with the active id stamped with the message time (and
      retitled by the title rule), every other chat unchanged. */
  lemma ChatsAfterMessageProperties(chats: seq<ChatMeta>, id: ChatId, role: Role, content: string, at: int)
    ensures var r := ChatsAfterMessage(chats, id, role, content, at);
      && SortedByRecency(r)
      && |r| == |chats|
      && (forall x :: x in Ids(r) <==> x in Ids(chats))
      && (forall c :: c in r && c.id == id ==> c.updatedAt == at)
      && (forall c :: c in r && c.id == id && Retitles(chats, id, role) ==> c.title == Title(content))
      && (forall c :: c in r && c.id == id && !Retitles(chats, id, role) ==> KeptTitle(chats, c))
      && (forall c :: c in r && c.id != id ==> c in chats)
      && (forall c :: c in chats && c.id != id ==> c in r)
  {
    var title := if Retitles(chats, id, role) then Some(Title(content)) else None;
    var t := Touch(chats, id, title, at);
    var r := SortByRecency(t);
    assert r == ChatsAfterMessage(chats, id, role, content, at);
    assert |r| == |multiset(r)| == |multiset(t)| == |t|;
    SortKeepsIds(t);
    TouchIds(chats, id, title, at);
    SortMembers(t);
    TouchMembers(chats, id, title, at);
  }

  /** Stamping keeps the ids. */
  lemma TouchIds(chats: seq<ChatMeta>, id: ChatId, title: Option<string>, at: int)
    ensures forall x :: x in Ids(Touch(chats, id, title, at)) <==> x in Ids(chats)
  {
    var t := Touch(chats, id, title, at);
    forall x ensures x in Ids(t) <==> x in Ids(chats) {
      if x in Ids(t) {
        var i :| 0 <= i < |t| && t[i].id == x;
        assert chats[i].id == x;
      }
      if x in Ids(chats) {
        var i :| 0 <= i < |chats| && chats[i].id == x;
        assert t[i].id == x;
      }
    }
  }

  /** What a stamped list holds: the chats with the id are stamped and
      retitled or keep a title of theirs, the others are the old ones. */
  lemma TouchMembers(chats: seq<ChatMeta>, id: ChatId, title: Option<string>, at: int)
    ensures var t := Touch(chats, id, title, at);
      && (forall c :: c in t && c.id == id ==> c.updatedAt == at)
      && (forall c :: c in t && c.id == id && title.Some? ==> c.title == title.value)
      && (forall c :: c in t && c.id == id && title.None? ==> KeptTitle(chats, c))
      && (forall c :: c in t && c.id != id ==> c in chats)
      && (forall c :: c in chats && c.id != id ==> c in t)
  {
    var t := Touch(chats, id, title, at);
    forall c | c in t
      ensures c.id == id ==> c.updatedAt == at
      ensures c.id == id && title.Some? ==> c.title == title.value
      ensures c.id == id && title.None? ==> KeptTitle(chats, c)
      ensures c.id != id ==> c in chats
    {
      var i :| 0 <= i < |t| && t[i] == c;
      if c.id == id && title.None? {
        assert chats[i].id == c.id && chats[i].title == c.title;
      }
    }
    forall c | c in chats && c.id != id ensures c in t {
      var i :| 0 <= i < |chats| && chats[i] == c;
      assert t[i] == c;
    }
  }

  /** Some chat of the list with `c`'s id has `c`'s title: a stamped chat
      that was not retitled kept its own. */
  predicate KeptTitle(chats: seq<ChatMeta>, c: ChatMeta) {
    exists k :: 0 <= k < |chats| && chats[k].id == c.id && chats[k].title == c.title
  }

  // ---------------------------------------------------------------------
  // The default model

  /** The index of the first model whose id contains "gpt-3.5". */
  function FirstPreferred(models: seq<ModelInfo>): (r: Option<nat>)
    ensures r.Some? ==> (r.value < |models| && Contains(models[r.value].id, PreferredModel)
      && forall k :: 0 <= k < r.value ==> !Contains(models[k].id, PreferredModel))
    ensures r.None? ==> forall k :: 0 <= k < |models| ==> !Contains(models[k].id, PreferredModel)
  {
    if models == [] then None
    else if Contains(models[0].id, PreferredModel) then Some(0)
    else match FirstPreferred(models[1..])
      case None => None
      case Some(i) => Some(i + 1)
  }

  /** `modelList.find(m => m.id.includes('gpt-3.5')) || modelList[0]`. */
  function DefaultModel(models: seq<ModelInfo>): (m: ModelInfo)
    requires |models| > 0
    ensures m in models
    ensures (exists k :: 0 <= k < |models| && Contains(models[k].id, PreferredModel))
      ==> Contains(m.id, PreferredModel)
    ensures (forall k :: 0 <= k < |models| ==> !Contains(models[k].id, PreferredModel)) ==> m == models[0]
    ensures forall i :: (0 <= i < |models| && Contains(models[i].id, PreferredModel) &&
                         forall k :: 0 <= k < i ==> !Contains(models[k].id, PreferredModel)) ==> m == models[i]
  {
    match FirstPreferred(models)
    case Some(i) => models[i]
    case None => models[0]
  }

  // ---------------------------------------------------------------------
  // Streaming into the last message

  /** `{ ...last, content, ...metadata }` where the metadata is at most the
      token usage of the reply. */
  function WithContent(last: Message, content: string, usage: Option<Usage>): (m: Message)
    ensures m.content == content
    ensures m.usage == if usage.Some? then usage else last.usage
    ensures m.id == last.id && m.role == last.role && m.model == last.model
    ensures m.images == last.images && m.timestamp == last.timestamp
  {
    last.(content := content, usage := if usage.Some? then usage else last.usage)
  }

  // ---------------------------------------------------------------------
  // The store

  class Store {
    var apiKey: string
    var models: seq<ModelInfo>
    var activeModel: string
    var chats: seq<ChatMeta>
    var activeChatId: Option<ChatId>
    var messages: seq<Message>
    var isLoading: bool
    var isFetchingModels: bool
    var sidebarOpen: bool

    /** Messages are shown only for an open chat. */
    ghost predicate Valid()
      reads this
    {
      activeChatId.None? ==> messages == []
    }

    constructor()
      ensures Valid()
      ensures apiKey == "" && models == [] && activeModel == InitialModel
      ensures chats == [] && activeChatId == None && messages == []
      ensures !isLoading && !isFetchingModels && sidebarOpen
    {
      apiKey, models, activeModel := "", [], InitialModel;
      chats, activeChatId, messages := [], None, [];
      isLoading, isFetchingModels, sidebarOpen := false, false, true;
    }

    /** `init`: the saved key (empty when none), the saved model (empty
        when none) and the saved chats, most recent first. Returns whether
        the models are then fetched, which happens when a key was saved. */
    method Init(savedKey: string, savedModel: string, savedChats: seq<ChatMeta>) returns (fetch: bool)
      requires Valid()
      modifies this`apiKey, this`activeModel, this`chats
      ensures Valid()
      ensures apiKey == savedKey && activeModel == savedModel && chats == SortByRecency(savedChats)
      ensures activeChatId == old(activeChatId) && messages == old(messages) && models == old(models)
      ensures fetch <==> savedKey != ""
    {
      apiKey, activeModel := savedKey, savedModel;
      chats := SortByRecency(savedChats);
      fetch := apiKey != "";
    }

    /** `fetchModels(key)`: with neither the given key nor a stored one
        nothing happens. Otherwise the list is requested with that key;
        `response` is the list received, already ordered by name, or None
        when the request failed. A received list replaces the models, and
        when no model is active the default one becomes active. */
    method FetchModels(key: string, response: Option<seq<ModelInfo>>) returns (requestedWith: Option<string>)
      requires Valid()
      modifies this`models, this`activeModel, this`isFetchingModels
      ensures Valid()
      ensures requestedWith.None? <==> (key == "" && old(apiKey) == "")
      ensures requestedWith.Some? ==> requestedWith.value == if key != "" then key else old(apiKey)
      ensures isFetchingModels == if requestedWith.Some? then false else old(isFetchingModels)
      ensures apiKey == old(apiKey) && chats == old(chats) && activeChatId == old(activeChatId) && messages == old(messages)
      ensures requestedWith.None? || response.None? ==> models == old(models) && activeModel == old(activeModel)
      ensures requestedWith.Some? && response.Some? ==> (models == response.value
        && activeModel == if old(activeModel) == "" && |response.value| > 0
                          then DefaultModel(response.value).id else old(activeModel))
    {
      var useKey := if key != "" then key else apiKey;
      if useKey == "" {
        return None;
      }
      requestedWith := Some(useKey);
      isFetchingModels := true;
      if response.Some? {
        var modelList := response.value;
        models := modelList;
        if activeModel == "" && |modelList| > 0 {
          SetActiveModel(DefaultModel(modelList).id);
        }
      }
      isFetchingModels := false;
    }

    method SetApiKey(key: string)
      requires Valid()
      modifies this`apiKey
      ensures Valid()
      ensures apiKey == key
      ensures activeModel == old(activeModel) && chats == old(chats) && activeChatId == old(activeChatId)
      ensures messages == old(messages) && models == old(models)
    {
      apiKey := key;
    }

    method SetActiveModel(model: string)
      requires Valid()
      modifies this`activeModel
      ensures Valid()
      ensures activeModel == model
      ensures apiKey == old(apiKey) && chats == old(chats) && activeChatId == old(activeChatId)
      ensures messages == old(messages) && models == old(models) && isFetchingModels == old(isFetchingModels)
    {
      activeModel := model;
    }

    method SetModels(list: seq<ModelInfo>)
      requires Valid()
      modifies this`models
      ensures Valid()
      ensures models == list
      ensures apiKey == old(apiKey) && activeModel == old(activeModel) && chats == old(chats)
      ensures activeChatId == old(activeChatId) && messages == old(messages)
    {
      models := list;
    }

    method SetSidebarOpen(isOpen: bool)
      requires Valid()
      modifies this`sidebarOpen
      ensures Valid()
      ensures sidebarOpen == isOpen
      ensures chats == old(chats) && activeChatId == old(activeChatId) && messages == old(messages)
    {
      sidebarOpen := isOpen;
    }

    method ToggleSidebar()
      requires Valid()
      modifies this`sidebarOpen
      ensures Valid()
      ensures sidebarOpen == !old(sidebarOpen)
      ensures chats == old(chats) && activeChatId == old(activeChatId) && messages == old(messages)
    {
      sidebarOpen := !sidebarOpen;
    }

    /** `useStore.setState({ isLoading })`. */
    method SetLoading(loading: bool)
      requires Valid()
      modifies this`isLoading
      ensures Valid()
      ensures isLoading == loading
      ensures apiKey == old(apiKey) && activeModel == old(activeModel) && chats == old(chats)
      ensures activeChatId == old(activeChatId) && messages == old(messages)
    {
      isLoading := loading;
    }

    /** `createNewChat`: a chat titled "New Chat" stamped `now` goes to the
        front of the list and becomes the open chat, with no messages. */
    method CreateNewChat(id: ChatId, now: int)
      requires Valid()
      modifies this`chats, this`activeChatId, this`messages
      ensures Valid()
      ensures chats == [ChatMeta(id, NewChatTitle, now)] + old(chats)
      ensures activeChatId == Some(id) && messages == []
      ensures apiKey == old(apiKey) && activeModel == old(activeModel) && sidebarOpen == old(sidebarOpen)
    {
      var newChat := ChatMeta(id, NewChatTitle, now);
      chats := [newChat] + chats;
      activeChatId := Some(id);
      messages := [];
    }

    /** `loadChat`: the chat becomes the open one with its saved history;
        on a narrow window the sidebar closes. */
    method LoadChat(id: ChatId, history: seq<Message>, narrowWindow: bool)
      requires Valid()
      modifies this`activeChatId, this`messages, this`sidebarOpen
      ensures Valid()
      ensures activeChatId == Some(id) && messages == history
      ensures sidebarOpen == if narrowWindow then false else old(sidebarOpen)
      ensures chats == old(chats) && apiKey == old(apiKey) && activeModel == old(activeModel)
    {
      activeChatId := Some(id);
      messages := history;
      if narrowWindow {
        sidebarOpen := false;
      }
    }

    /** `deleteChat`: every chat with that id leaves the list, the others
        keep their order; the open chat is closed only if it was that one. */
    method DeleteChat(id: ChatId)
      requires Valid()
      modifies this`chats, this`activeChatId, this`messages
      ensures Valid()
      ensures chats == Filter(old(chats), (c: ChatMeta) => c.id != id)
      ensures old(activeChatId) == Some(id) ==> activeChatId == None && messages == []
      ensures old(activeChatId) != Some(id) ==> activeChatId == old(activeChatId) && messages == old(messages)
      ensures apiKey == old(apiKey) && activeModel == old(activeModel) && sidebarOpen == old(sidebarOpen)
    {
      chats := Filter(chats, (c: ChatMeta) => c.id != id);
      if activeChatId == Some(id) {
        activeChatId := None;
        messages := [];
      }
    }

    /** `addMessage(role, content, images)`: nothing without an open chat.
        Otherwise the message (id `msgId`, time `now`, the active model for
        an assistant message) is appended, and the chat list becomes
        `ChatsAfterMessage`. */
    method AddMessage(role: Role, content: string, images: seq<string>, msgId: string, now: int)
      requires Valid()
      modifies this`messages, this`chats
      ensures Valid()
      ensures old(activeChatId).None? ==> messages == old(messages) && chats == old(chats)
      ensures old(activeChatId).Some? ==> (
        messages == old(messages) + [Message(msgId, role, content,
          if role == Assistant then Some(old(activeModel)) else None, images, now, None)]
        && chats == ChatsAfterMessage(old(chats), old(activeChatId).value, role, content, now))
      ensures activeChatId == old(activeChatId) && apiKey == old(apiKey) && activeModel == old(activeModel)
      ensures isLoading == old(isLoading) && sidebarOpen == old(sidebarOpen)
    {
      if activeChatId.None? {
        return;
      }
      var chatId := activeChatId.value;
      var newMessage := Message(msgId, role, content, if role == Assistant then Some(activeModel) else None,
                                images, now, None);
      messages := messages + [newMessage];
      var currentChat := FindChat(chats, chatId);
      if currentChat.Some? && currentChat.value.title == NewChatTitle && role == User {
        var newTitle := Title(content);
        chats := SortByRecency(Touch(chats, chatId, Some(newTitle), newMessage.timestamp));
      } else {
        chats := SortByRecency(Touch(chats, chatId, None, newMessage.timestamp));
      }
    }

    /** `updateLastMessage(content, metadata)`: nothing on an empty list;
        otherwise only the last message changes, taking the content and
        the usage when one is given. */
    method UpdateLastMessage(content: string, usage: Option<Usage>)
      requires Valid()
      modifies this`messages
      ensures Valid()
      ensures old(messages) == [] ==> messages == []
      ensures old(messages) != [] ==>
        messages == old(messages)[..|old(messages)| - 1] + [WithContent(old(messages)[|old(messages)| - 1], content, usage)]
      ensures chats == old(chats) && activeChatId == old(activeChatId) && isLoading == old(isLoading)
      ensures apiKey == old(apiKey) && activeModel == old(activeModel)
    {
      if |messages| == 0 {
        return;
      }
      var lastMsg := messages[|messages| - 1];
      var updated := WithContent(lastMsg, content, usage);
      messages := messages[..|messages| - 1] + [updated];
    }
  }

  /** Toggling the sidebar twice leaves it as it was. */
  method ToggleSidebarTwice(store: Store)
    requires store.Valid()
    modifies store`sidebarOpen
    ensures store.Valid() && store.sidebarOpen == old(store.sidebarOpen)
  {
    store.ToggleSidebar();
    store.ToggleSidebar();
  }
}

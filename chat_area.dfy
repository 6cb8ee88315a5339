/** The conversation view's send handler and scroll check
    (openrouter-chat/src/components/ChatArea.jsx). Sending records the user's
    message and an empty assistant message in the store, builds the request
    from the history shown when the send began, streams the reply into the
    assistant message and clears the loading flag however the stream ends.
    The HTTP exchange is given: the text chunks that arrived, the payload
    parser, and the error that ended the stream, if any. */
module ChatArea {
  import opened Common
  import opened StreamFramer
  import opened ChatStore

  const ErrorPrefix: string := "Error: "
  const MissingKeyAlert: string := "Please set your OpenRouter API key in settings."
  const BottomTolerance: real := 10.0

  // ---------------------------------------------------------------------
  // Shaping the request

  /** One part of a multi-part message. */
  datatype ContentPart = TextPart(text: string) | ImageUrl(url: string)

  /** A message's content: a plain string, or a text part followed by
      image parts. */
  datatype ApiContent = Plain(text: string) | Parts(parts: seq<ContentPart>)

  datatype ApiMessage = ApiMessage(role: Role, content: ApiContent)

  /** What `streamChat` is called with: the key, the model and the messages. */
  datatype ChatRequest = ChatRequest(apiKey: string, model: string, messages: seq<ApiMessage>)

  /** The content sent for a text and its images. */
  function ToApiContent(text: string, images: seq<string>): (c: ApiContent)
    ensures images == [] ==> c == Plain(text)
    ensures images != [] ==> (c.Parts? && |c.parts| == |images| + 1 && c.parts[0] == TextPart(text)
      && forall i :: 0 <= i < |images| ==> c.parts[i + 1] == ImageUrl(images[i]))
  {
    if |images| > 0 then Parts([TextPart(text)] + ImageParts(images)) else Plain(text)
  }

  function ImageParts(images: seq<string>): (r: seq<ContentPart>)
    ensures |r| == |images| && forall i :: 0 <= i < |images| ==> r[i] == ImageUrl(images[i])
  {
    seq(|images|, i requires 0 <= i < |images| => ImageUrl(images[i]))
  }

  /** The text and images can be read back from the content sent. */
  lemma ApiContentRoundTrip(text: string, images: seq<string>)
    ensures TextOf(ToApiContent(text, images)) == text
    ensures ImagesOf(ToApiContent(text, images)) == images
  {
    var c := ToApiContent(text, images);
    if images != [] {
      assert c.parts[1..] == ImageParts(images);
      UrlsOfImageParts(images);
    }
  }

  lemma {:induction false} UrlsOfImageParts(images: seq<string>)
    ensures UrlsOf(ImageParts(images)) == images
    decreases |images|
  {
    if images != [] {
      assert ImageParts(images)[1..] == ImageParts(images[1..]);
      UrlsOfImageParts(images[1..]);
    }
  }

  function TextOf(c: ApiContent): string {
    match c
    case Plain(t) => t
    case Parts(ps) => if |ps| > 0 && ps[0].TextPart? then ps[0].text else ""
  }

  function ImagesOf(c: ApiContent): seq<string> {
    match c
    case Plain(_) => []
    case Parts(ps) => if |ps| > 0 then UrlsOf(ps[1..]) else []
  }

  function UrlsOf(ps: seq<ContentPart>): seq<string> {
    if ps == [] then [] else (if ps[0].ImageUrl? then [ps[0].url] else []) + UrlsOf(ps[1..])
  }

  /** `apiMessages`: the history as shown, in order, then the new user
      message. */
  function ApiMessages(history: seq<Message>, text: string, images: seq<string>): (r: seq<ApiMessage>)
    ensures |r| == |history| + 1
    ensures forall i :: 0 <= i < |history| ==>
      r[i] == ApiMessage(history[i].role, ToApiContent(history[i].content, history[i].images))
    ensures r[|history|] == ApiMessage(User, ToApiContent(text, images))
  {
    seq(|history|, i requires 0 <= i < |history| =>
      ApiMessage(history[i].role, ToApiContent(history[i].content, history[i].images)))
    + [ApiMessage(User, ToApiContent(text, images))]
  }

  // ---------------------------------------------------------------------
  // Accumulating the reply

  /** The reply text after the callbacks: their contents joined in order
      (`fullResponse`). */
  function Accumulated(calls: seq<Chunk>): string {
    if calls == [] then "" else Accumulated(calls[..|calls| - 1]) + calls[|calls| - 1].content
  }

  /** The usage the reply ends with: the latest one reported, or the
      message's own. */
  function LatestUsage(calls: seq<Chunk>, initial: Option<Usage>): Option<Usage> {
    if calls == [] then initial
    else if calls[|calls| - 1].usage.Some? then calls[|calls| - 1].usage
    else LatestUsage(calls[..|calls| - 1], initial)
  }

  /** The reply of two runs of callbacks is the first's followed by the
      second's. */
  lemma {:induction false} AccumulatedAppend(a: seq<Chunk>, b: seq<Chunk>)
    ensures Accumulated(a + b) == Accumulated(a) + Accumulated(b)
    decreases |b|
  {
    if b == [] {
      assert a + b == a;
    } else {
      assert (a + b)[..|a + b| - 1] == a + b[..|b| - 1];
      AccumulatedAppend(a, b[..|b| - 1]);
    }
  }

  /** The reply text depends only on the stream's text, not on how it was
      cut into chunks. */
  lemma ReplyIgnoresChunking(chunks: seq<string>, i: nat, j: nat, parse: Parser)
    requires i < |chunks| && j <= |chunks[i]|
    ensures var cut := chunks[..i] + [chunks[i][..j], chunks[i][j..]] + chunks[i + 1..];
      Accumulated(Events(CompleteLines(Concat(cut)), parse))
        == Accumulated(Events(CompleteLines(Concat(chunks)), parse))
  {
    ChunkingIrrelevant(chunks, i, j, parse);
  }

  /** The state of the assistant message after the callbacks. */
  function Streamed(placeholder: Message, calls: seq<Chunk>): (m: Message)
    ensures m.content == Accumulated(calls)
    ensures m.usage == LatestUsage(calls, placeholder.usage)
    ensures m.id == placeholder.id && m.role == placeholder.role && m.model == placeholder.model
    ensures m.timestamp == placeholder.timestamp && m.images == placeholder.images
  {
    placeholder.(content := Accumulated(calls), usage := LatestUsage(calls, placeholder.usage))
  }

  /** What the assistant message finally holds: the streamed reply, or the
      error text when the stream failed. */
  function FinalReply(placeholder: Message, calls: seq<Chunk>, failure: Option<string>): (m: Message)
    ensures failure.None? ==> m == Streamed(placeholder, calls)
    ensures failure.Some? ==> m == Streamed(placeholder, calls).(content := ErrorPrefix + failure.value)
  {
    var streamed := Streamed(placeholder, calls);
    if failure.Some? then WithContent(streamed, ErrorPrefix + failure.value, None) else streamed
  }

  /** The streaming callback run over all the reply's callbacks: after
      each one the last message holds every content so far and the latest
      usage. */
  method Accumulate(store: Store, calls: seq<Chunk>, ghost base: seq<Message>, ghost placeholder: Message)
    requires store.Valid() && store.messages == base + [placeholder] && placeholder.content == ""
    modifies store`messages
    ensures store.Valid() && store.messages == base + [Streamed(placeholder, calls)]
    ensures store.chats == old(store.chats) && store.activeChatId == old(store.activeChatId)
    ensures store.isLoading == old(store.isLoading) && store.apiKey == old(store.apiKey)
    ensures store.activeModel == old(store.activeModel)
  {
    var fullResponse := "";
    var k := 0;
    while k < |calls|
      invariant 0 <= k <= |calls|
      invariant store.Valid() && fullResponse == Accumulated(calls[..k])
      invariant store.messages == base + [Streamed(placeholder, calls[..k])]
      invariant store.chats == old(store.chats) && store.activeChatId == old(store.activeChatId)
      invariant store.isLoading == old(store.isLoading) && store.apiKey == old(store.apiKey)
      invariant store.activeModel == old(store.activeModel)
    {
      assert calls[..k + 1][..k] == calls[..k];
      fullResponse := fullResponse + calls[k].content;
      assert store.messages[..|store.messages| - 1] == base;
      store.UpdateLastMessage(fullResponse, calls[k].usage);
      k := k + 1;
    }
    assert calls[..k] == calls;
  }

  /** `handleSend(text, images)`. Without an API key only the alert is shown
      (`alerted`) and nothing changes. Otherwise: loading is set, the user
      message and an empty assistant message are added, the request carries
      the key, the active model and the history shown at send time plus the
      new message, the assistant message
      receives the streamed reply or the error text, and loading is cleared
      on either path. */
  method HandleSend(store: Store, text: string, images: seq<string>,
                    userMessageId: string, sentAt: int, replyId: string, repliedAt: int,
                    chunks: seq<string>, parse: Parser, failure: Option<string>)
    returns (alerted: bool, request: Option<ChatRequest>)
    requires store.Valid()
    modifies store`isLoading, store`messages, store`chats
    ensures store.Valid()
    ensures alerted <==> old(store.apiKey) == ""
    ensures alerted ==> (request.None? && store.messages == old(store.messages) && store.chats == old(store.chats)
      && store.isLoading == old(store.isLoading))
    ensures !alerted ==> (request == Some(ChatRequest(old(store.apiKey), old(store.activeModel),
                                                       ApiMessages(old(store.messages), text, images)))
                          && !store.isLoading)
    ensures !alerted && old(store.activeChatId).None? ==> store.messages == [] && store.chats == old(store.chats)
    ensures !alerted && old(store.activeChatId).Some? ==>
      var calls := Events(CompleteLines(Concat(chunks)), parse);
      var placeholder := Message(replyId, Assistant, "", Some(old(store.activeModel)), [], repliedAt, None);
      && store.messages == old(store.messages)
           + [Message(userMessageId, User, text, None, images, sentAt, None), FinalReply(placeholder, calls, failure)]
      && store.chats == ChatsAfterMessage(ChatsAfterMessage(old(store.chats), old(store.activeChatId).value,
                                                            User, text, sentAt),
                                          old(store.activeChatId).value, Assistant, "", repliedAt)
  {
    if store.apiKey == "" {
      return true, None;
    }
    alerted := false;
    var shown := store.messages;
    ghost var model := store.activeModel;
    store.SetLoading(true);
    PostTurn(store, text, images, userMessageId, sentAt, replyId, repliedAt);
    request := Some(ChatRequest(store.apiKey, store.activeModel, ApiMessages(shown, text, images)));
    var calls, leftover := StreamChat(chunks, parse);
    ghost var placeholder := Message(replyId, Assistant, "", Some(model), [], repliedAt, None);
    ghost var user := Message(userMessageId, User, text, None, images, sentAt, None);
    ghost var base := shown + [user];
    AppendPair(shown, user, placeholder);
    ReceiveReply(store, calls, failure, base, placeholder);
    AppendPair(shown, user, FinalReply(placeholder, calls, failure));
    store.SetLoading(false);
  }

  /** The two `addMessage` calls of a send: the user's message, then the
      empty assistant message that the reply will fill. */
  method PostTurn(store: Store, text: string, images: seq<string>,
                  userMessageId: string, sentAt: int, replyId: string, repliedAt: int)
    requires store.Valid()
    modifies store`messages, store`chats
    ensures store.Valid()
    ensures store.activeChatId == old(store.activeChatId) && store.apiKey == old(store.apiKey)
    ensures store.activeModel == old(store.activeModel) && store.isLoading == old(store.isLoading)
    ensures old(store.activeChatId).None? ==> store.messages == [] && store.chats == old(store.chats)
    ensures old(store.activeChatId).Some? ==>
      && store.messages == old(store.messages) + [Message(userMessageId, User, text, None, images, sentAt, None),
                                                  Message(replyId, Assistant, "", Some(old(store.activeModel)), [], repliedAt, None)]
      && store.chats == ChatsAfterMessage(ChatsAfterMessage(old(store.chats), old(store.activeChatId).value,
                                                            User, text, sentAt),
                                          old(store.activeChatId).value, Assistant, "", repliedAt)
  {
    store.AddMessage(User, text, images, userMessageId, sentAt);
    store.AddMessage(Assistant, "", [], replyId, repliedAt);
  }

  /** The stream's callbacks, then the error text if the stream failed:
      the assistant message ends as `FinalReply`; nothing else changes. */
  method ReceiveReply(store: Store, calls: seq<Chunk>, failure: Option<string>,
                      ghost base: seq<Message>, ghost placeholder: Message)
    requires store.Valid() && placeholder.content == ""
    requires store.activeChatId.Some? ==> store.messages == base + [placeholder]
    modifies store`messages
    ensures store.Valid()
    ensures store.activeChatId.Some? ==> store.messages == base + [FinalReply(placeholder, calls, failure)]
    ensures store.activeChatId.None? ==> store.messages == []
    ensures store.chats == old(store.chats) && store.activeChatId == old(store.activeChatId)
    ensures store.apiKey == old(store.apiKey) && store.isLoading == old(store.isLoading)
  {
    // Without an open chat the message list is empty and every update of
    // its last message does nothing.
    if store.activeChatId.Some? {
      Accumulate(store, calls, base, placeholder);
    }
    if failure.Some? {
      ghost var streamed := store.messages;
      if store.activeChatId.Some? {
        assert streamed[..|streamed| - 1] == base;
      }
      store.UpdateLastMessage(ErrorPrefix + failure.value, None);
    }
  }

  // ---------------------------------------------------------------------
  // Following the conversation

  /** The view follows new messages while its bottom is within 10 pixels. */
  predicate IsAtBottom(scrollHeight: real, scrollTop: real, clientHeight: real) {
    scrollHeight - scrollTop - clientHeight <= BottomTolerance
  }

  /** Scrolling further down never leaves the bottom, and the view is at
      the bottom exactly when the gap below it is at most 10 pixels. */
  lemma AtBottomMonotone(scrollHeight: real, scrollTop: real, clientHeight: real, further: real, gap: real)
    requires scrollTop <= further
    ensures IsAtBottom(scrollHeight, scrollTop, clientHeight) ==> IsAtBottom(scrollHeight, further, clientHeight)
    ensures IsAtBottom(scrollHeight, scrollHeight - clientHeight - gap, clientHeight) <==> gap <= BottomTolerance
  {
  }
}

/**
 * The slices of Telegram entities the forwarder reads: a chat, the forum
 * topics of a channel and one page of the topic listing.  Fetching pages is
 * abstracted away: the model is handed the page each request would return.
 */
module Telegram {
  import opened Wrappers
  import opened Text
  import opened PyValues
  import opened ChatKeys

  /**
   * A chat entity.  `isChannel` is `isinstance(chat, Channel)`; a missing
   * attribute reads as `None`.
   */
  datatype Chat = Chat(
    isChannel: bool,
    forum: bool,
    id: Option<int>,
    username: Option<string>,
    title: Option<string>,
    firstName: Option<string>)

  /** A forum topic: its id, the id of its root message and its title. */
  datatype Topic = Topic(id: int, topMessage: Option<int>, title: Option<string>)

  /** One answer of the topic listing: `res.topics` and `res.count`. */
  datatype Page = Page(topics: seq<Topic>, count: Option<int>)

  /** The paging arguments of one topic-listing request. */
  datatype Request = Request(offsetTopic: int, limit: int)

  /** The `int | str | None` key a chat is cached under. */
  type ChatKey = Option<ChatRef>

  /** A forum-enabled channel: the only chats whose topics are listed. */
  predicate IsForum(chat: Chat)
  {
    chat.isChannel && chat.forum
  }

  /** `getattr(chat, "id", None) or getattr(chat, "username", None)`. */
  function ChatKeyOfChat(chat: Chat): (k: ChatKey)
    ensures k.Some? && k.value.Id? <==> chat.id.Some? && chat.id.value != 0
    ensures k.Some? && k.value.Id? ==> k.value.id == chat.id.value
    ensures k.Some? && k.value.Handle? ==> chat.username == Some(k.value.name)
    ensures k.None? <==> (chat.id.None? || chat.id.value == 0) && chat.username.None?
  {
    if chat.id.Some? && chat.id.value != 0 then Some(Id(chat.id.value))
    else match chat.username
      case Some(u) => Some(Handle(u))
      case None => None
  }

  /** The key as a Python value, for looking it up in a JSON dict. */
  function KeyValue(k: ChatKey): (v: PyValue)
    ensures IsScalar(v)
  {
    match k
    case None => PNone
    case Some(Id(i)) => PInt(i)
    case Some(Handle(u)) => PStr(u)
  }

  /** `str(chat_key)`. */
  function KeyText(k: ChatKey): (s: string)
    ensures s == Str(KeyValue(k), _ => "")
  {
    match k
    case None => "None"
    case Some(Id(i)) => IntToString(i)
    case Some(Handle(u)) => u
  }

  /** The answer to the `i`-th request; past the given pages the listing is empty. */
  function PageAt(pages: seq<Page>, i: nat): (p: Page)
    ensures i >= |pages| ==> p.topics == []
    ensures i < |pages| ==> p == pages[i]
  {
    if i < |pages| then pages[i] else Page([], None)
  }

  /** `t.title or f"topic#{t.id}"`. */
  function TitleOf(t: Topic): (s: string)
    ensures |s| > 0
    ensures t.title.Some? && |t.title.value| > 0 ==> s == t.title.value
  {
    if t.title.Some? && |t.title.value| > 0 then t.title.value else "topic#" + IntToString(t.id)
  }

  /** `getattr(res, "count", None) and total >= int(res.count)`. */
  predicate CountReached(count: Option<int>, total: int)
  {
    count.Some? && count.value != 0 && total >= count.value
  }

  /** The topic occurs on one of the pages. */
  ghost predicate InPages(pages: seq<Page>, t: Topic)
  {
    exists i, a :: 0 <= i < |pages| && 0 <= a < |pages[i].topics| && pages[i].topics[a] == t
  }

  /** No two listed topics share a root message. */
  ghost predicate UniqueTops(pages: seq<Page>)
  {
    forall t, u :: InPages(pages, t) && InPages(pages, u) && t.topMessage.Some? && t.topMessage == u.topMessage ==> t.id == u.id
  }
}

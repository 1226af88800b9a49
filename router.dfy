/**
 * The listener's `router` (src/telegram_reader.py): for each new message it
 * decides whether the handler is called, and with which injected routing
 * data.  The chat entity, the message and its raw text are inputs; the
 * topic cache is the preloaded `FastTopicMap`.
 */
module Router {
  import opened Wrappers
  import opened Text
  import opened PyValues
  import opened ChatKeys
  import opened Telegram
  import opened Extract
  import opened TopicMap
  import opened Config

  /** A new-message event as the router sees it. */
  datatype Incoming = Incoming(
    chatId: int,
    chat: Chat,
    message: Option<Message>,
    rawText: Option<string>)

  /**
   * The attributes the router injects into the event before calling the
   * handler (`_target_chat`, `_topic_id`, `_topic_title`,
   * `_chat_username`, `_chat_title`), with the event's own `chat_id`.
   */
  datatype Event = Event(
    chatId: int,
    target: ChatRef,
    topicId: Option<int>,
    topicTitle: Option<string>,
    chatUsername: Option<string>,
    chatTitle: string)

  /** What the router does with one message. */
  datatype Outcome =
    | Discovery            // no sources configured: the chat is only printed
    | NotSource            // the chat is not one of the sources
    | Raised(e: PyError)   // `extract_top_msg_id` raised; the handler is not reached
    | NotAllowed           // `TOPIC_MAP` is set and the root message is not whitelisted
    | EmptyText            // nothing to hand over
    | Deliver(text: string, event: Event)

  /** `username.lstrip("@").lower() if username else None`. */
  function UserKey(chat: Chat): (u: Option<string>)
    ensures u.Some? <==> chat.username.Some? && |chat.username.value| > 0
    ensures u.Some? ==> u.value == Lower(LStrip(chat.username.value, '@'))
  {
    if chat.username.Some? && |chat.username.value| > 0 then Some(Lower(LStrip(chat.username.value, '@'))) else None
  }

  /** The user key is usable in a lookup (`chat_username and ...`). */
  predicate HasUser(u: Option<string>)
  {
    u.Some? && |u.value| > 0
  }

  /** `(chat_id in sources) or (chat_username and chat_username in sources)`. */
  predicate SourceMatch(sources: set<ChatRef>, chatId: int, user: Option<string>)
  {
    Id(chatId) in sources || (HasUser(user) && Handle(user.value) in sources)
  }

  /** `getattr(chat, "title", None) or getattr(chat, "first_name", "Privado")`. */
  function ChatTitle(chat: Chat): (s: string)
    ensures chat.title.Some? && |chat.title.value| > 0 ==> s == chat.title.value
  {
    if chat.title.Some? && |chat.title.value| > 0 then chat.title.value
    else if chat.firstName.Some? then chat.firstName.value
    else "Privado"
  }

  /**
   * The `TARGET_MAP` if/elif chain: (id, topic), (user, topic), (id, root
   * message), (user, root message), (id, whole chat), (user, whole chat),
   * and `TARGET_CHAT` when none is present.
   */
  function ResolveTarget(targets: map<RouteKey, ChatRef>, fallback: ChatRef, chatId: int, user: Option<string>,
                         topicId: Option<int>, top: Option<int>): ChatRef
  {
    if RouteKey(Id(chatId), topicId) in targets then targets[RouteKey(Id(chatId), topicId)]
    else if HasUser(user) && RouteKey(Handle(user.value), topicId) in targets then targets[RouteKey(Handle(user.value), topicId)]
    else if RouteKey(Id(chatId), top) in targets then targets[RouteKey(Id(chatId), top)]
    else if HasUser(user) && RouteKey(Handle(user.value), top) in targets then targets[RouteKey(Handle(user.value), top)]
    else if RouteKey(Id(chatId), None) in targets then targets[RouteKey(Id(chatId), None)]
    else if HasUser(user) && RouteKey(Handle(user.value), None) in targets then targets[RouteKey(Handle(user.value), None)]
    else fallback
  }

  /** The keys the cascade tries, in order; the username keys only for a usable username. */
  function TargetCandidates(chatId: int, user: Option<string>, topicId: Option<int>, top: Option<int>): (c: seq<RouteKey>)
    ensures |c| == if HasUser(user) then 6 else 3
  {
    if HasUser(user) then
      [RouteKey(Id(chatId), topicId), RouteKey(Handle(user.value), topicId),
       RouteKey(Id(chatId), top), RouteKey(Handle(user.value), top),
       RouteKey(Id(chatId), None), RouteKey(Handle(user.value), None)]
    else
      [RouteKey(Id(chatId), topicId), RouteKey(Id(chatId), top), RouteKey(Id(chatId), None)]
  }

  /** The router for one message. */
  function Route(sources: set<ChatRef>, topicMap: PyValue, targets: map<RouteKey, ChatRef>, targetChat: ChatRef,
                 fm: FastTopicMap, inc: Incoming): Outcome
    reads fm
  {
    if |sources| == 0 then Discovery
    else
      var user := UserKey(inc.chat);
      if !SourceMatch(sources, inc.chatId, user) then NotSource
      else match ReaderTopMsgId(inc.message)
        case Err(e) => Raised(e)
        case Ok(top) =>
          if Truthy(topicMap) && !fm.IsTopAllowed(inc.chat, top) then NotAllowed
          else
            var resolved := fm.ResolveFromTop(inc.chat, top);
            var target := ResolveTarget(targets, targetChat, inc.chatId, user, resolved.0, top);
            var text := Strip(if inc.rawText.Some? then inc.rawText.value else "");
            if |text| == 0 then EmptyText
            else Deliver(text, Event(inc.chatId, target, resolved.0, resolved.1, user, ChatTitle(inc.chat)))
  }

  // ---------------------------------------------------------------------
  // Properties
  // ---------------------------------------------------------------------

  /** The destination of the first candidate present in `targets`, `fallback` when none is. */
  function FirstHit(targets: map<RouteKey, ChatRef>, c: seq<RouteKey>, fallback: ChatRef): ChatRef
  {
    if |c| == 0 then fallback
    else if c[0] in targets then targets[c[0]]
    else FirstHit(targets, c[1..], fallback)
  }

  /** `FirstHit` picks the first present candidate, and the fallback exactly when none is present. */
  lemma {:induction false} FirstHitSpec(targets: map<RouteKey, ChatRef>, c: seq<RouteKey>, fallback: ChatRef)
    ensures (forall i :: 0 <= i < |c| ==> c[i] !in targets) ==> FirstHit(targets, c, fallback) == fallback
    ensures forall i :: 0 <= i < |c| && c[i] in targets && (forall j :: 0 <= j < i ==> c[j] !in targets) ==>
              FirstHit(targets, c, fallback) == targets[c[i]]
  {
    if |c| > 0 {
      FirstHitSpec(targets, c[1..], fallback);
      forall i | 0 <= i < |c| && c[i] in targets && (forall j :: 0 <= j < i ==> c[j] !in targets)
        ensures FirstHit(targets, c, fallback) == targets[c[i]]
      {
        if i > 0 {
          var d := c[1..];
          assert c[0] !in targets;
          assert d[i - 1] == c[i];
          forall j | 0 <= j < i - 1
            ensures d[j] !in targets
          {
            assert d[j] == c[j + 1];
          }
        }
      }
      if forall i :: 0 <= i < |c| ==> c[i] !in targets {
        var d := c[1..];
        assert c[0] !in targets;
        forall j | 0 <= j < |d|
          ensures d[j] !in targets
        {
          assert d[j] == c[j + 1];
        }
      }
    }
  }

  /**
   * The target cascade is first-hit-wins over its candidate keys: the
   * destination of the first present candidate, `TARGET_CHAT` when none is
   * present.
   */
  lemma TargetFirstHit(targets: map<RouteKey, ChatRef>, fallback: ChatRef, chatId: int, user: Option<string>,
                       topicId: Option<int>, top: Option<int>)
    ensures ResolveTarget(targets, fallback, chatId, user, topicId, top) ==
              FirstHit(targets, TargetCandidates(chatId, user, topicId, top), fallback)
  {
    var c := TargetCandidates(chatId, user, topicId, top);
    assert c[0..] == c;
    FirstHitStep(targets, c, fallback, 0);
    FirstHitStep(targets, c, fallback, 1);
    FirstHitStep(targets, c, fallback, 2);
    FirstHitStep(targets, c, fallback, 3);
    if HasUser(user) {
      FirstHitStep(targets, c, fallback, 4);
      FirstHitStep(targets, c, fallback, 5);
      FirstHitStep(targets, c, fallback, 6);
    }
  }

  lemma FirstHitStep(targets: map<RouteKey, ChatRef>, c: seq<RouteKey>, fallback: ChatRef, k: nat)
    requires k <= |c|
    ensures FirstHit(targets, c[k..], fallback) ==
              if k == |c| then fallback
              else if c[k] in targets then targets[c[k]]
              else FirstHit(targets, c[k + 1..], fallback)
  {
    if k < |c| {
      assert c[k..][1..] == c[k + 1..];
    }
  }

  /** An exact (chat id, topic) entry beats every other entry. */
  lemma TopicEntryWins(targets: map<RouteKey, ChatRef>, fallback: ChatRef, chatId: int, user: Option<string>,
                       topicId: Option<int>, top: Option<int>)
    requires RouteKey(Id(chatId), topicId) in targets
    ensures ResolveTarget(targets, fallback, chatId, user, topicId, top) == targets[RouteKey(Id(chatId), topicId)]
  {
  }

  /** With an empty `TARGET_MAP` everything goes to `TARGET_CHAT`. */
  lemma EmptyTargetMap(fallback: ChatRef, chatId: int, user: Option<string>, topicId: Option<int>, top: Option<int>)
    ensures ResolveTarget(map[], fallback, chatId, user, topicId, top) == fallback
  {
  }

  /**
   * The handler is reached exactly when there are sources, the chat matches
   * by id or normalised username, the root-message id is readable, the
   * allow gate passes (or `TOPIC_MAP` is falsy) and the stripped text is
   * non-empty.
   */
  lemma DeliverIff(sources: set<ChatRef>, topicMap: PyValue, targets: map<RouteKey, ChatRef>, targetChat: ChatRef,
                   fm: FastTopicMap, inc: Incoming)
    ensures var top := ReaderTopMsgId(inc.message);
            Route(sources, topicMap, targets, targetChat, fm, inc).Deliver? <==>
              |sources| > 0 && SourceMatch(sources, inc.chatId, UserKey(inc.chat)) && top.Ok?
              && (!Truthy(topicMap) || fm.IsTopAllowed(inc.chat, top.value))
              && |Strip(if inc.rawText.Some? then inc.rawText.value else "")| > 0
  {
  }

  /**
   * A delivered message carries the stripped text, the topic resolved from
   * its root id and the cascade's destination.
   */
  lemma DeliveredEvent(sources: set<ChatRef>, topicMap: PyValue, targets: map<RouteKey, ChatRef>, targetChat: ChatRef,
                       fm: FastTopicMap, inc: Incoming)
    requires Route(sources, topicMap, targets, targetChat, fm, inc).Deliver?
    ensures var o := Route(sources, topicMap, targets, targetChat, fm, inc);
            var user := UserKey(inc.chat);
            var top := ReaderTopMsgId(inc.message).value;
            var resolved := fm.ResolveFromTop(inc.chat, top);
            o.text == Strip(if inc.rawText.Some? then inc.rawText.value else "")
            && o.event == Event(inc.chatId, ResolveTarget(targets, targetChat, inc.chatId, user, resolved.0, top),
                                resolved.0, resolved.1, user, ChatTitle(inc.chat))
  {
    DeliverIff(sources, topicMap, targets, targetChat, fm, inc);
  }

  /** Without sources the router only discovers chats. */
  lemma NoSourcesDiscovers(topicMap: PyValue, targets: map<RouteKey, ChatRef>, targetChat: ChatRef, fm: FastTopicMap, inc: Incoming)
    ensures Route({}, topicMap, targets, targetChat, fm, inc) == Discovery
  {
  }

  /** Sources match whatever case or leading `@` the chat's username has. */
  lemma SourceMatchIgnoresAt(sources: set<ChatRef>, chatId: int, chat: Chat, name: string)
    requires chat.username == Some("@" + name) && |name| > 0 && name[0] != '@'
    requires Handle(Lower(name)) in sources
    ensures SourceMatch(sources, chatId, UserKey(chat))
  {
    var u := "@" + name;
    assert u[1..] == name;
    assert LeadingCount(u, '@') == 1;
    assert LStrip(u, '@') == name;
  }

  /**
   * With a falsy `TOPIC_MAP` the gate lets every readable message of a
   * source chat through, whatever the topic cache holds.
   */
  lemma NoTopicMapNoGate(sources: set<ChatRef>, targets: map<RouteKey, ChatRef>, targetChat: ChatRef,
                         fm: FastTopicMap, inc: Incoming, topicMap: PyValue)
    requires !Truthy(topicMap)
    requires |sources| > 0 && SourceMatch(sources, inc.chatId, UserKey(inc.chat))
    requires ReaderTopMsgId(inc.message).Ok?
    requires |Strip(if inc.rawText.Some? then inc.rawText.value else "")| > 0
    ensures Route(sources, topicMap, targets, targetChat, fm, inc).Deliver?
  {
  }

  /**
   * With `TOPIC_MAP` set, a delivered message's root id is in the chat's
   * allowed set, so a message outside a topic (no root id) is never delivered.
   */
  lemma GatedDeliveryIsAllowed(sources: set<ChatRef>, topicMap: PyValue, targets: map<RouteKey, ChatRef>, targetChat: ChatRef,
                               fm: FastTopicMap, inc: Incoming)
    requires Truthy(topicMap)
    requires Route(sources, topicMap, targets, targetChat, fm, inc).Deliver?
    ensures var top := ReaderTopMsgId(inc.message);
            var key := ChatKeyOfChat(inc.chat);
            top.Ok? && top.value.Some? && key in fm.allowedTop && top.value.value in fm.allowedTop[key]
  {
  }
}

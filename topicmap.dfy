/**
 * The in-memory topic cache of the reader (src/telegram_reader.py,
 * `FastTopicMap`): per chat, topic id to root-message id, root-message id
 * to (topic id, title), and the root messages whose topic is whitelisted.
 * Lookups never fetch anything; an unknown chat is denied.
 */
module TopicMap {
  import opened Wrappers
  import opened Text
  import opened PyValues
  import opened ChatKeys
  import opened Telegram

  /** `for _ in range(5)` pages of `limit=200` topics. */
  const PreloadPages: nat := 5
  const PreloadLimit: int := 200

  /** What `top_to_topic` stores for a root message. */
  datatype TopicInfo = TopicInfo(topicId: int, title: string)

  /** The two maps of one chat while they are built, and the topics counted so far. */
  datatype Maps = Maps(topicToTop: map<int, int>, topToTopic: map<int, TopicInfo>, total: nat)

  const NoMaps := Maps(map[], map[], 0)

  /** One topic of a page: skipped without a root message, otherwise entered in both maps. */
  function AddTopic(m: Maps, t: Topic): Maps
  {
    match t.topMessage
    case None => m
    case Some(top) => Maps(m.topicToTop[t.id := top], m.topToTopic[top := TopicInfo(t.id, TitleOf(t))], m.total + 1)
  }

  /** The topics of a page, entered in order. */
  function AddTopics(m: Maps, ts: seq<Topic>): Maps
  {
    if |ts| == 0 then m else AddTopic(AddTopics(m, ts[..|ts| - 1]), ts[|ts| - 1])
  }

  /** The number of topics that have a root message. */
  function CountTops(ts: seq<Topic>): nat
  {
    if |ts| == 0 then 0 else CountTops(ts[..|ts| - 1]) + if ts[|ts| - 1].topMessage.Some? then 1 else 0
  }

  /** The maps a page loop ends with and the requests it made. */
  datatype Crawled = Crawled(maps: Maps, requests: seq<Request>)

  /** The page loop from round `round` on, asking from topic `offset` with maps `m` built so far. */
  function Crawl(pages: seq<Page>, round: nat, offset: int, m: Maps): Crawled
    decreases PreloadPages - round
  {
    if round >= PreloadPages then Crawled(m, [])
    else
      var req := Request(offset, PreloadLimit);
      var page := PageAt(pages, round);
      if |page.topics| == 0 then Crawled(m, [req])
      else
        var m' := AddTopics(m, page.topics);
        if CountReached(page.count, m'.total) then Crawled(m', [req])
        else
          var rest := Crawl(pages, round + 1, page.topics[|page.topics| - 1].id, m');
          Crawled(rest.maps, [req] + rest.requests)
  }

  // ---------------------------------------------------------------------
  // Page loop
  // ---------------------------------------------------------------------

  /** `for t in topics:` of one page. */
  method AbsorbTopics(m: Maps, topics: seq<Topic>) returns (r: Maps)
    ensures r == AddTopics(m, topics)
  {
    r := m;
    var j := 0;
    while j < |topics|
      invariant 0 <= j <= |topics|
      invariant r == AddTopics(m, topics[..j])
    {
      var t := topics[j];
      assert topics[..j + 1][..j] == topics[..j];
      if t.topMessage.Some? {
        var top := t.topMessage.value;
        r := Maps(r.topicToTop[t.id := top], r.topToTopic[top := TopicInfo(t.id, TitleOf(t))], r.total + 1);
      }
      j := j + 1;
    }
    assert topics[..j] == topics;
  }

  /** One round of the page loop that neither meets an empty page nor reaches the count. */
  lemma CrawlGoesOn(pages: seq<Page>, round: nat, offset: int, m: Maps)
    requires round < PreloadPages
    requires |PageAt(pages, round).topics| > 0
    requires !CountReached(PageAt(pages, round).count, AddTopics(m, PageAt(pages, round).topics).total)
    ensures var topics := PageAt(pages, round).topics;
            var rest := Crawl(pages, round + 1, topics[|topics| - 1].id, AddTopics(m, topics));
            Crawl(pages, round, offset, m) == Crawled(rest.maps, [Request(offset, PreloadLimit)] + rest.requests)
  {
  }

  /** The page loop of `preload_for_chat`: the `i`-th request is answered by `pages[i]`. */
  method FetchTopics(pages: seq<Page>) returns (m: Maps, requests: seq<Request>)
    ensures Crawled(m, requests) == Crawl(pages, 0, 0, NoMaps)
  {
    ghost var whole := Crawl(pages, 0, 0, NoMaps);
    var offset := 0;
    m := NoMaps;
    requests := [];
    var round: nat := 0;
    while round < PreloadPages
      invariant round <= PreloadPages
      invariant whole.maps == Crawl(pages, round, offset, m).maps
      invariant whole.requests == requests + Crawl(pages, round, offset, m).requests
      decreases PreloadPages - round
    {
      var page := PageAt(pages, round);
      var req := Request(offset, PreloadLimit);
      var topics := page.topics;
      if |topics| == 0 {
        requests := requests + [req];
        break;
      }
      ghost var before := requests;
      requests := requests + [req];
      var m' := AbsorbTopics(m, topics);
      if page.count.Some? && page.count.value != 0 && m'.total >= page.count.value {
        m := m';
        break;
      }
      CrawlGoesOn(pages, round, offset, m);
      ghost var rest := Crawl(pages, round + 1, topics[|topics| - 1].id, m');
      assert whole.requests == before + ([req] + rest.requests);
      assert whole.requests == requests + rest.requests;
      m := m';
      offset := topics[|topics| - 1].id;
      round := round + 1;
    }
  }

  // ---------------------------------------------------------------------
  // Whitelist
  // ---------------------------------------------------------------------

  /** The root messages of the listed topic ids: int-convertible, known, and truthy. */
  function AllowedFrom(items: seq<PyValue>, topicToTop: map<int, int>): set<int>
  {
    if |items| == 0 then {}
    else
      AllowedFrom(items[..|items| - 1], topicToTop)
      + match ToInt(items[|items| - 1])
        case Err(_) => {}
        case Ok(tid) => if tid in topicToTop && topicToTop[tid] != 0 then {topicToTop[tid]} else {}
  }

  /** The whitelist entries under one key: `tm.get(k) if isinstance(tm, dict) else None`, iterated when truthy. */
  function WhitelistItems(tm: PyValue, k: PyValue): Result<seq<PyValue>, PyError>
    requires IsScalar(k)
  {
    var wl := if tm.PDict? then DictGet(tm, k) else None;
    if wl.Some? && Truthy(wl.value) then Iterate(wl.value) else Ok([])
  }

  /** `(chat_key, str(chat_key))`. */
  function LookupKeys(key: ChatKey): (ks: seq<PyValue>)
    ensures forall j :: 0 <= j < |ks| ==> IsScalar(ks[j])
  {
    [KeyValue(key), PStr(KeyText(key))]
  }

  /** The allowed set gathered over some lookup keys, or the error of a whitelist that is not iterable. */
  function AllowedOver(tm: PyValue, keys: seq<PyValue>, topicToTop: map<int, int>): Result<set<int>, PyError>
    requires forall j :: 0 <= j < |keys| ==> IsScalar(keys[j])
  {
    if |keys| == 0 then Ok({})
    else
      var acc :- AllowedOver(tm, keys[..|keys| - 1], topicToTop);
      var items :- WhitelistItems(tm, keys[|keys| - 1]);
      Ok(acc + AllowedFrom(items, topicToTop))
  }

  /** The allowed set of a chat; empty when `TOPIC_MAP` is falsy. */
  function AllowedSet(tm: PyValue, key: ChatKey, topicToTop: map<int, int>): Result<set<int>, PyError>
  {
    if Truthy(tm) then AllowedOver(tm, LookupKeys(key), topicToTop) else Ok({})
  }

  /** The inner `for topic_id in topics_whitelist:` loop. */
  method CollectAllowed(items: seq<PyValue>, topicToTop: map<int, int>) returns (s: set<int>)
    ensures s == AllowedFrom(items, topicToTop)
  {
    s := {};
    var j := 0;
    while j < |items|
      invariant 0 <= j <= |items|
      invariant s == AllowedFrom(items[..j], topicToTop)
    {
      assert items[..j + 1][..j] == items[..j];
      var tid := ToInt(items[j]);
      if tid.Ok? {
        if tid.value in topicToTop && topicToTop[tid.value] != 0 {
          s := s + {topicToTop[tid.value]};
        }
      }
      j := j + 1;
    }
    assert items[..j] == items;
  }

  /** The `if tm:` block building `allowed_set`. */
  method BuildAllowed(tm: PyValue, key: ChatKey, topicToTop: map<int, int>) returns (r: Result<set<int>, PyError>)
    ensures r == AllowedSet(tm, key, topicToTop)
  {
    if !Truthy(tm) {
      return Ok({});
    }
    r := GatherAllowed(tm, LookupKeys(key), topicToTop);
  }

  /** The `for k in (chat_key, str(chat_key)):` loop. */
  method GatherAllowed(tm: PyValue, keys: seq<PyValue>, topicToTop: map<int, int>) returns (r: Result<set<int>, PyError>)
    requires forall j :: 0 <= j < |keys| ==> IsScalar(keys[j])
    ensures r == AllowedOver(tm, keys, topicToTop)
  {
    var allowed: set<int> := {};
    var i := 0;
    while i < |keys|
      invariant 0 <= i <= |keys|
      invariant AllowedOver(tm, keys[..i], topicToTop) == Ok(allowed)
    {
      var items := WhitelistItems(tm, keys[i]);
      if items.Err? {
        AllowedOverStops(tm, keys, topicToTop, i);
        return Err(items.error);
      }
      var more := CollectAllowed(items.value, topicToTop);
      AllowedOverStep(tm, keys, topicToTop, i);
      allowed := allowed + more;
      i := i + 1;
    }
    assert keys[..i] == keys;
    r := Ok(allowed);
  }

  /** One more key whose whitelist iterates adds its allowed roots. */
  lemma AllowedOverStep(tm: PyValue, keys: seq<PyValue>, topicToTop: map<int, int>, i: nat)
    requires forall j :: 0 <= j < |keys| ==> IsScalar(keys[j])
    requires i < |keys| && AllowedOver(tm, keys[..i], topicToTop).Ok? && WhitelistItems(tm, keys[i]).Ok?
    ensures AllowedOver(tm, keys[..i + 1], topicToTop)
            == Ok(AllowedOver(tm, keys[..i], topicToTop).value + AllowedFrom(WhitelistItems(tm, keys[i]).value, topicToTop))
  {
    assert keys[..i + 1][..i] == keys[..i];
  }

  /** A whitelist that is not iterable ends the gathering with its error. */
  lemma AllowedOverStops(tm: PyValue, keys: seq<PyValue>, topicToTop: map<int, int>, i: nat)
    requires forall j :: 0 <= j < |keys| ==> IsScalar(keys[j])
    requires i < |keys| && AllowedOver(tm, keys[..i], topicToTop).Ok? && WhitelistItems(tm, keys[i]).Err?
    ensures AllowedOver(tm, keys, topicToTop) == Err(WhitelistItems(tm, keys[i]).error)
  {
    assert keys[..i + 1][..i] == keys[..i];
    AllowedOverErrSticks(tm, keys, topicToTop, i + 1);
  }

  lemma {:induction false} AllowedOverErrSticks(tm: PyValue, keys: seq<PyValue>, topicToTop: map<int, int>, n: nat)
    requires forall j :: 0 <= j < |keys| ==> IsScalar(keys[j])
    requires n <= |keys| && AllowedOver(tm, keys[..n], topicToTop).Err?
    ensures AllowedOver(tm, keys, topicToTop) == AllowedOver(tm, keys[..n], topicToTop)
    decreases |keys| - n
  {
    if n < |keys| {
      assert keys[..n + 1][..n] == keys[..n];
      AllowedOverErrSticks(tm, keys, topicToTop, n + 1);
    } else {
      assert keys[..n] == keys;
    }
  }

  // ---------------------------------------------------------------------
  // The cache object
  // ---------------------------------------------------------------------

  class FastTopicMap {
    var topicToTop: map<ChatKey, map<int, int>>
    var topToTopic: map<ChatKey, map<int, TopicInfo>>
    var allowedTop: map<ChatKey, set<int>>

    constructor ()
      ensures topicToTop == map[] && topToTopic == map[] && allowedTop == map[]
    {
      topicToTop := map[];
      topToTopic := map[];
      allowedTop := map[];
    }

    /**
     * `preload_for_chat`: lists the topics of a forum channel and replaces
     * that chat's maps and allowed set.  A whitelist that is not iterable
     * raises after the maps were stored; `err` is that exception.
     */
    method PreloadForChat(chat: Chat, pages: seq<Page>, tm: PyValue) returns (requests: seq<Request>, err: Option<PyError>)
      modifies this
      ensures !IsForum(chat) ==> requests == [] && err == None && unchanged(this)
      ensures IsForum(chat) ==>
                var key := ChatKeyOfChat(chat);
                var c := Crawl(pages, 0, 0, NoMaps);
                var allowed := AllowedSet(tm, key, c.maps.topicToTop);
                && requests == c.requests
                && topicToTop == old(topicToTop)[key := c.maps.topicToTop]
                && topToTopic == old(topToTopic)[key := c.maps.topToTopic]
                && (allowed.Ok? ==> err == None && allowedTop == old(allowedTop)[key := allowed.value])
                && (allowed.Err? ==> err == Some(allowed.error) && allowedTop == old(allowedTop))
    {
      if !(chat.isChannel && chat.forum) {
        return [], None;
      }
      var key := ChatKeyOfChat(chat);
      var m;
      m, requests := FetchTopics(pages);
      topicToTop := topicToTop[key := m.topicToTop];
      topToTopic := topToTopic[key := m.topToTopic];
      var allowed := BuildAllowed(tm, key, m.topicToTop);
      if allowed.Err? {
        return requests, Some(allowed.error);
      }
      allowedTop := allowedTop[key := allowed.value];
      err := None;
    }

    /** `resolve_from_top`: the stored (topic id, title) of a root message, without I/O. */
    function ResolveFromTop(chat: Chat, top: Option<int>): (r: (Option<int>, Option<string>))
      reads this
      ensures r.0.Some? <==> r.1.Some?
      ensures r.0.Some? <==> top.Some? && ChatKeyOfChat(chat) in topToTopic && top.value in topToTopic[ChatKeyOfChat(chat)]
      ensures r.0.Some? ==> topToTopic[ChatKeyOfChat(chat)][top.value] == TopicInfo(r.0.value, r.1.value)
    {
      if top.None? then (None, None)
      else
        var key := ChatKeyOfChat(chat);
        var m := if key in topToTopic then topToTopic[key] else map[];
        if top.value in m then (Some(m[top.value].topicId), Some(m[top.value].title)) else (None, None)
    }

    /** `is_top_allowed`: membership in the chat's allowed set; an unknown chat is denied. */
    function IsTopAllowed(chat: Chat, top: Option<int>): (b: bool)
      reads this
      ensures b <==> top.Some? && ChatKeyOfChat(chat) in allowedTop && top.value in allowedTop[ChatKeyOfChat(chat)]
    {
      if top.None? then false
      else
        var key := ChatKeyOfChat(chat);
        var allowed := if key in allowedTop then allowedTop[key] else {};
        top.value in allowed
    }
  }

  // ---------------------------------------------------------------------
  // Properties of the page loop
  // ---------------------------------------------------------------------

  /**
   * Entering a page: topics without a root message are skipped, every other
   * topic is keyed in both maps and counted, and every new entry of
   * `top_to_topic` is the (id, title) of a listed topic with that root.
   */
  lemma {:induction false} AddTopicsSpec(m: Maps, ts: seq<Topic>)
    ensures AddTopics(m, ts).total == m.total + CountTops(ts)
    ensures forall tid :: tid in AddTopics(m, ts).topicToTop <==>
              tid in m.topicToTop || exists a :: 0 <= a < |ts| && ts[a].topMessage.Some? && ts[a].id == tid
    ensures forall top :: top in AddTopics(m, ts).topToTopic <==>
              top in m.topToTopic || exists a :: 0 <= a < |ts| && ts[a].topMessage == Some(top)
    ensures forall top :: top in AddTopics(m, ts).topToTopic && top !in m.topToTopic ==>
              exists a :: 0 <= a < |ts| && ts[a].topMessage == Some(top)
                          && AddTopics(m, ts).topToTopic[top] == TopicInfo(ts[a].id, TitleOf(ts[a]))
  {
    if |ts| > 0 {
      var init := ts[..|ts| - 1];
      var t := ts[|ts| - 1];
      AddTopicsSpec(m, init);
      assert forall a :: 0 <= a < |init| ==> init[a] == ts[a];
      var r0 := AddTopics(m, init);
      var r := AddTopics(m, ts);
      assert r == AddTopic(r0, t);
      forall tid ensures tid in r.topicToTop <==> tid in m.topicToTop || exists a :: 0 <= a < |ts| && ts[a].topMessage.Some? && ts[a].id == tid {
        if exists a :: 0 <= a < |ts| && ts[a].topMessage.Some? && ts[a].id == tid {
          var a :| 0 <= a < |ts| && ts[a].topMessage.Some? && ts[a].id == tid;
          if a < |init| {
            assert init[a].topMessage.Some? && init[a].id == tid;
          }
        }
      }
      forall top ensures top in r.topToTopic <==> top in m.topToTopic || exists a :: 0 <= a < |ts| && ts[a].topMessage == Some(top) {
        if exists a :: 0 <= a < |ts| && ts[a].topMessage == Some(top) {
          var a :| 0 <= a < |ts| && ts[a].topMessage == Some(top);
          if a < |init| {
            assert init[a].topMessage == Some(top);
          }
        }
      }
      forall top | top in r.topToTopic && top !in m.topToTopic
        ensures exists a :: 0 <= a < |ts| && ts[a].topMessage == Some(top) && r.topToTopic[top] == TopicInfo(ts[a].id, TitleOf(ts[a]))
      {
        if t.topMessage == Some(top) {
          assert ts[|ts| - 1].topMessage == Some(top);
        } else {
          var a :| 0 <= a < |init| && init[a].topMessage == Some(top) && r0.topToTopic[top] == TopicInfo(init[a].id, TitleOf(init[a]));
          assert ts[a] == init[a];
        }
      }
    }
  }

  /** The id the next request starts from: the last topic of the previous page. */
  function LastId(topics: seq<Topic>): int
  {
    if |topics| == 0 then 0 else topics[|topics| - 1].id
  }

  /**
   * The requests of the page loop: at most the remaining rounds, each for 200
   * topics, the first from `offset` and each later one from the last topic
   * of the page before; none after an empty page.  The loop ends before the
   * last round only on an empty page or once the count is reached.
   */
  lemma CrawlRequests(pages: seq<Page>, round: nat, offset: int, m: Maps)
    requires round <= PreloadPages
    ensures var c := Crawl(pages, round, offset, m);
            && |c.requests| <= PreloadPages - round
            && (round < PreloadPages ==> |c.requests| >= 1)
            && (forall k :: 0 <= k < |c.requests| ==> c.requests[k].limit == PreloadLimit)
            && (|c.requests| > 0 ==> c.requests[0].offsetTopic == offset)
            && (forall k :: 0 < k < |c.requests| ==> c.requests[k].offsetTopic == LastId(PageAt(pages, round + k - 1).topics))
            && (forall k :: round <= k < round + |c.requests| - 1 ==> |PageAt(pages, k).topics| > 0)
            && (0 < |c.requests| && round + |c.requests| < PreloadPages ==>
                  var last := PageAt(pages, round + |c.requests| - 1);
                  |last.topics| == 0 || CountReached(last.count, c.maps.total))
  {
    CrawlRounds(pages, round, offset, m);
    CrawlOffsets(pages, round, offset, m);
  }

  /** How many rounds the page loop makes, and why it stops early. */
  lemma {:induction false} CrawlRounds(pages: seq<Page>, round: nat, offset: int, m: Maps)
    requires round <= PreloadPages
    ensures var c := Crawl(pages, round, offset, m);
            && |c.requests| <= PreloadPages - round
            && (round < PreloadPages ==> |c.requests| >= 1)
            && (forall k :: round <= k < round + |c.requests| - 1 ==> |PageAt(pages, k).topics| > 0)
            && (0 < |c.requests| && round + |c.requests| < PreloadPages ==>
                  var last := PageAt(pages, round + |c.requests| - 1);
                  |last.topics| == 0 || CountReached(last.count, c.maps.total))
    decreases PreloadPages - round
  {
    if round < PreloadPages {
      var page := PageAt(pages, round);
      if |page.topics| > 0 {
        var m' := AddTopics(m, page.topics);
        if !CountReached(page.count, m'.total) {
          var next := page.topics[|page.topics| - 1].id;
          CrawlRounds(pages, round + 1, next, m');
          var rest := Crawl(pages, round + 1, next, m');
          var c := Crawl(pages, round, offset, m);
          assert c.requests == [Request(offset, PreloadLimit)] + rest.requests && c.maps == rest.maps;
        }
      }
    }
  }

  /** Every request asks for 200 topics, from `offset` first and then from the last topic of the page before. */
  lemma {:induction false} CrawlOffsets(pages: seq<Page>, round: nat, offset: int, m: Maps)
    requires round <= PreloadPages
    ensures var c := Crawl(pages, round, offset, m);
            && (forall k :: 0 <= k < |c.requests| ==> c.requests[k].limit == PreloadLimit)
            && (|c.requests| > 0 ==> c.requests[0].offsetTopic == offset)
            && (forall k :: 0 < k < |c.requests| ==> c.requests[k].offsetTopic == LastId(PageAt(pages, round + k - 1).topics))
    decreases PreloadPages - round
  {
    if round < PreloadPages {
      var page := PageAt(pages, round);
      if |page.topics| > 0 {
        var m' := AddTopics(m, page.topics);
        if !CountReached(page.count, m'.total) {
          var next := page.topics[|page.topics| - 1].id;
          CrawlOffsets(pages, round + 1, next, m');
          var rest := Crawl(pages, round + 1, next, m');
          var c := Crawl(pages, round, offset, m);
          assert c.requests == [Request(offset, PreloadLimit)] + rest.requests;
          assert forall k :: 0 < k < |c.requests| ==> c.requests[k] == rest.requests[k - 1];
        }
      }
    }
  }

  // ---------------------------------------------------------------------
  // Coherence of the two maps
  // ---------------------------------------------------------------------

  /** Every stored topic id leads to a root message that leads back to it. */
  ghost predicate Coherent(m: Maps)
  {
    forall tid :: tid in m.topicToTop ==> m.topicToTop[tid] in m.topToTopic && m.topToTopic[m.topicToTop[tid]].topicId == tid
  }

  /** Every entry of `top_to_topic` pairs a root message with a listed topic that has it. */
  ghost predicate Sourced(m: Maps, pages: seq<Page>)
  {
    forall top :: top in m.topToTopic ==>
      exists t :: InPages(pages, t) && t.topMessage == Some(top) && t.id == m.topToTopic[top].topicId
  }

  lemma AddTopicCoherent(m: Maps, t: Topic, pages: seq<Page>)
    requires UniqueTops(pages) && InPages(pages, t)
    requires Coherent(m) && Sourced(m, pages)
    ensures Coherent(AddTopic(m, t)) && Sourced(AddTopic(m, t), pages)
  {
    if t.topMessage.Some? {
      var top := t.topMessage.value;
      var r := AddTopic(m, t);
      forall tid | tid in m.topicToTop && m.topicToTop[tid] == top
        ensures tid == t.id
      {
        var u :| InPages(pages, u) && u.topMessage == Some(top) && u.id == m.topToTopic[top].topicId;
        assert u.id == t.id;
      }
    }
  }

  lemma {:induction false} AddTopicsCoherent(m: Maps, ts: seq<Topic>, pages: seq<Page>)
    requires UniqueTops(pages) && forall a :: 0 <= a < |ts| ==> InPages(pages, ts[a])
    requires Coherent(m) && Sourced(m, pages)
    ensures Coherent(AddTopics(m, ts)) && Sourced(AddTopics(m, ts), pages)
  {
    if |ts| > 0 {
      var init := ts[..|ts| - 1];
      assert forall a :: 0 <= a < |init| ==> init[a] == ts[a];
      AddTopicsCoherent(m, init, pages);
      AddTopicCoherent(AddTopics(m, init), ts[|ts| - 1], pages);
    }
  }

  /** With distinct root messages, the maps the page loop builds stay coherent. */
  lemma {:induction false} CrawlCoherent(pages: seq<Page>, round: nat, offset: int, m: Maps)
    requires UniqueTops(pages)
    requires Coherent(m) && Sourced(m, pages)
    ensures Coherent(Crawl(pages, round, offset, m).maps) && Sourced(Crawl(pages, round, offset, m).maps, pages)
    decreases PreloadPages - round
  {
    if round < PreloadPages {
      var page := PageAt(pages, round);
      if |page.topics| > 0 {
        assert round < |pages|;
        assert forall a :: 0 <= a < |page.topics| ==> InPages(pages, page.topics[a]) by {
          forall a | 0 <= a < |page.topics| ensures InPages(pages, page.topics[a]) {
            assert pages[round].topics[a] == page.topics[a];
          }
        }
        AddTopicsCoherent(m, page.topics, pages);
        var m' := AddTopics(m, page.topics);
        if !CountReached(page.count, m'.total) {
          CrawlCoherent(pages, round + 1, page.topics[|page.topics| - 1].id, m');
        }
      }
    }
  }

  // ---------------------------------------------------------------------
  // Properties of the allowed set
  // ---------------------------------------------------------------------

  /** The entry converts with `int()` to the topic id `tid`. */
  predicate Listed(items: seq<PyValue>, tid: int)
  {
    exists a :: 0 <= a < |items| && ToInt(items[a]) == Ok(tid)
  }

  /**
   * A root message is allowed by a whitelist exactly when some entry
   * converts to a known topic id whose root message it is (and it is not 0);
   * entries that do not convert and topics not listed are dropped.
   */
  lemma {:induction false} AllowedFromSpec(items: seq<PyValue>, topicToTop: map<int, int>)
    ensures forall top :: top in AllowedFrom(items, topicToTop) <==>
              top != 0 && exists tid :: tid in topicToTop && topicToTop[tid] == top && Listed(items, tid)
  {
    if |items| > 0 {
      var init := items[..|items| - 1];
      var x := items[|items| - 1];
      AllowedFromSpec(init, topicToTop);
      ListedSnoc(items);
      forall top ensures top in AllowedFrom(items, topicToTop) <==>
                         top != 0 && exists tid :: tid in topicToTop && topicToTop[tid] == top && Listed(items, tid)
      {
        if top != 0 && exists tid :: tid in topicToTop && topicToTop[tid] == top && Listed(items, tid) {
          var tid :| tid in topicToTop && topicToTop[tid] == top && Listed(items, tid);
          if !Listed(init, tid) {
            assert ToInt(x) == Ok(tid);
          }
        }
        if top in AllowedFrom(items, topicToTop) && top !in AllowedFrom(init, topicToTop) {
          var tid := ToInt(x).value;
          assert Listed(items, tid);
        }
      }
    }
  }

  lemma ListedSnoc(items: seq<PyValue>)
    requires |items| > 0
    ensures forall tid :: Listed(items, tid) <==> Listed(items[..|items| - 1], tid) || ToInt(items[|items| - 1]) == Ok(tid)
  {
    var init := items[..|items| - 1];
    assert forall a :: 0 <= a < |init| ==> init[a] == items[a];
    forall tid | Listed(items, tid) ensures Listed(init, tid) || ToInt(items[|items| - 1]) == Ok(tid) {
      var a :| 0 <= a < |items| && ToInt(items[a]) == Ok(tid);
      if a < |init| {
        assert ToInt(init[a]) == Ok(tid);
      }
    }
  }

  /** The whitelist entries under `k` include the topic id `tid`. */
  predicate ListedUnder(tm: PyValue, k: PyValue, tid: int)
    requires IsScalar(k)
  {
    WhitelistItems(tm, k).Ok? && Listed(WhitelistItems(tm, k).value, tid)
  }

  /** `TOPIC_MAP` lists `tid` for the chat, under `chat_key` or under `str(chat_key)`. */
  predicate Whitelisted(tm: PyValue, key: ChatKey, tid: int)
  {
    Truthy(tm) && (ListedUnder(tm, KeyValue(key), tid) || ListedUnder(tm, PStr(KeyText(key)), tid))
  }

  /**
   * The allowed set: without `TOPIC_MAP` it is empty; building it fails
   * exactly when a whitelist under one of the two keys is truthy but not
   * iterable; otherwise it holds the non-zero root messages of the known
   * whitelisted topics.
   */
  lemma AllowedSetSpec(tm: PyValue, key: ChatKey, topicToTop: map<int, int>)
    ensures !Truthy(tm) ==> AllowedSet(tm, key, topicToTop) == Ok({})
    ensures Truthy(tm) ==>
              (AllowedSet(tm, key, topicToTop).Err? <==>
                 WhitelistItems(tm, KeyValue(key)).Err? || WhitelistItems(tm, PStr(KeyText(key))).Err?)
    ensures AllowedSet(tm, key, topicToTop).Ok? ==>
              forall top :: top in AllowedSet(tm, key, topicToTop).value <==>
                top != 0 && exists tid :: tid in topicToTop && topicToTop[tid] == top && Whitelisted(tm, key, tid)
  {
    if Truthy(tm) {
      AllowedOverPair(tm, KeyValue(key), PStr(KeyText(key)), topicToTop);
      var r := AllowedSet(tm, key, topicToTop);
      if r.Ok? {
        AllowedFromSpec(WhitelistItems(tm, KeyValue(key)).value, topicToTop);
        AllowedFromSpec(WhitelistItems(tm, PStr(KeyText(key))).value, topicToTop);
      }
    }
  }

  /** The two-key loop: the first failing whitelist is raised, else the union of both. */
  lemma AllowedOverPair(tm: PyValue, a: PyValue, b: PyValue, topicToTop: map<int, int>)
    requires IsScalar(a) && IsScalar(b)
    ensures AllowedOver(tm, [a, b], topicToTop) ==
              if WhitelistItems(tm, a).Err? then Err(WhitelistItems(tm, a).error)
              else if WhitelistItems(tm, b).Err? then Err(WhitelistItems(tm, b).error)
              else Ok(AllowedFrom(WhitelistItems(tm, a).value, topicToTop) + AllowedFrom(WhitelistItems(tm, b).value, topicToTop))
  {
    assert [a, b][..1] == [a];
    assert [a][..0] == [];
    var wa := WhitelistItems(tm, a);
    var wb := WhitelistItems(tm, b);
    assert AllowedOver(tm, [], topicToTop) == Ok({});
    if wa.Ok? {
      assert AllowedOver(tm, [a], topicToTop) == Ok({} + AllowedFrom(wa.value, topicToTop));
      assert {} + AllowedFrom(wa.value, topicToTop) == AllowedFrom(wa.value, topicToTop);
    }
  }

  /**
   * Permission and resolution agree: when no two topics share a root
   * message, an allowed root message resolves to a topic that `TOPIC_MAP`
   * whitelists for the chat.
   */
  lemma AllowedTopResolves(pages: seq<Page>, tm: PyValue, key: ChatKey, top: int)
    requires UniqueTops(pages)
    requires AllowedSet(tm, key, Crawl(pages, 0, 0, NoMaps).maps.topicToTop).Ok?
    requires top in AllowedSet(tm, key, Crawl(pages, 0, 0, NoMaps).maps.topicToTop).value
    ensures var m := Crawl(pages, 0, 0, NoMaps).maps;
            top in m.topToTopic && Whitelisted(tm, key, m.topToTopic[top].topicId)
  {
    var m := Crawl(pages, 0, 0, NoMaps).maps;
    CrawlCoherent(pages, 0, 0, NoMaps);
    AllowedSetSpec(tm, key, m.topicToTop);
    var tid :| tid in m.topicToTop && m.topicToTop[tid] == top && Whitelisted(tm, key, tid);
  }

  /**
   * The same fact on the cache object: once a chat was preloaded from
   * `pages`, `is_top_allowed` implies that `resolve_from_top` finds a
   * whitelisted topic.
   */
  lemma PermissionAgreesWithResolution(fm: FastTopicMap, chat: Chat, pages: seq<Page>, tm: PyValue, top: int)
    requires UniqueTops(pages)
    requires var key := ChatKeyOfChat(chat);
             var m := Crawl(pages, 0, 0, NoMaps).maps;
             key in fm.topToTopic && fm.topToTopic[key] == m.topToTopic
             && key in fm.allowedTop && AllowedSet(tm, key, m.topicToTop) == Ok(fm.allowedTop[key])
    requires fm.IsTopAllowed(chat, Some(top))
    ensures fm.ResolveFromTop(chat, Some(top)).0.Some?
    ensures Whitelisted(tm, ChatKeyOfChat(chat), fm.ResolveFromTop(chat, Some(top)).0.value)
  {
    AllowedTopResolves(pages, tm, ChatKeyOfChat(chat), top);
  }

  /** A chat that was never preloaded resolves nothing and allows nothing. */
  lemma UnknownChatFailsClosed(fm: FastTopicMap, chat: Chat, top: Option<int>)
    requires ChatKeyOfChat(chat) !in fm.topToTopic && ChatKeyOfChat(chat) !in fm.allowedTop
    ensures fm.ResolveFromTop(chat, top) == (None, None)
    ensures !fm.IsTopAllowed(chat, top)
  {
  }
}

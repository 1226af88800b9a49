/**
 * The refresh-on-miss topic resolver (src/utils/utils_topic.py,
 * `TopicResolver`): per chat, root-message id to (topic id, title), fetched
 * page by page and fetched again once when a root message is not found.
 */
module Resolver {
  import opened Wrappers
  import opened Text
  import opened ChatKeys
  import opened Telegram
  import opened TopicMap

  /** The cache: chat key to root-message id to (topic id, title). */
  type Cache = map<ChatKey, map<int, TopicInfo>>

  /** One topic of a page: keyed by its root message, skipped without one. */
  function MapTopic(mapping: map<int, TopicInfo>, t: Topic): map<int, TopicInfo>
  {
    match t.topMessage
    case None => mapping
    case Some(top) => mapping[top := TopicInfo(t.id, TitleOf(t))]
  }

  function MapTopics(mapping: map<int, TopicInfo>, ts: seq<Topic>): map<int, TopicInfo>
  {
    if |ts| == 0 then mapping else MapTopic(MapTopics(mapping, ts[..|ts| - 1]), ts[|ts| - 1])
  }

  /** A mapping fetched and the requests made for it. */
  datatype Fetched = Fetched(mapping: map<int, TopicInfo>, requests: seq<Request>)

  /**
   * The page loop of `_ensure_cache` from round `round` of `rounds`, each
   * request for `size` topics; it stops on an empty page or once the
   * number of distinct root messages reaches the reported count.
   */
  function Fetch(pages: seq<Page>, rounds: int, size: int, round: nat, offset: int, mapping: map<int, TopicInfo>): Fetched
    decreases rounds - round
  {
    if round >= rounds then Fetched(mapping, [])
    else
      var req := Request(offset, size);
      var page := PageAt(pages, round);
      if |page.topics| == 0 then Fetched(mapping, [req])
      else
        var m' := MapTopics(mapping, page.topics);
        if CountReached(page.count, |m'|) then Fetched(m', [req])
        else
          var rest := Fetch(pages, rounds, size, round + 1, LastId(page.topics), m');
          Fetched(rest.mapping, [req] + rest.requests)
  }

  /** The cache after `_ensure_cache` and the requests it made. */
  datatype Ensured = Ensured(cache: Cache, requests: seq<Request>)

  /**
   * `_ensure_cache`: nothing for a chat that is not a forum channel, nothing
   * when not forced and the chat already has a non-empty map; otherwise the
   * pages are listed and the chat's map is replaced only by a non-empty one.
   */
  function EnsureCacheOf(cache: Cache, chat: Chat, pages: seq<Page>, force: bool, rounds: int, size: int): Ensured
  {
    if !IsForum(chat) then Ensured(cache, [])
    else
      var key := ChatKeyOfChat(chat);
      if !force && key in cache && |cache[key]| > 0 then Ensured(cache, [])
      else
        var f := Fetch(pages, rounds, size, 0, 0, map[]);
        Ensured(if |f.mapping| > 0 then cache[key := f.mapping] else cache, f.requests)
  }

  /** `self.cache.get(chat_key, {}).get(top_msg_id)`. */
  function CachedTopic(cache: Cache, key: ChatKey, top: int): (r: Option<TopicInfo>)
    ensures r.Some? <==> key in cache && top in cache[key]
    ensures r.Some? ==> r.value == cache[key][top]
  {
    if key in cache && top in cache[key] then Some(cache[key][top]) else None
  }

  /** A found pair, or `(None, None)`. */
  function AsPair(info: Option<TopicInfo>): (r: (Option<int>, Option<string>))
    ensures info.Some? ==> r == (Some(info.value.topicId), Some(info.value.title))
    ensures info.None? ==> r == (None, None)
  {
    match info
    case Some(i) => (Some(i.topicId), Some(i.title))
    case None => (None, None)
  }

  /** What `topmsg_to_topic` returns, leaves in the cache and requests. */
  datatype Resolved = Resolved(pair: (Option<int>, Option<string>), cache: Cache, requests: seq<Request>)

  /**
   * `topmsg_to_topic`: `listing` answers the first (unforced) fill, and
   * `refresh` the forced one made after a miss.
   */
  function TopmsgOf(cache: Cache, chat: Chat, top: Option<int>, listing: seq<Page>, refresh: seq<Page>, rounds: int, size: int): Resolved
  {
    if top.None? then Resolved((None, None), cache, [])
    else
      var key := ChatKeyOfChat(chat);
      var first := EnsureCacheOf(cache, chat, listing, false, rounds, size);
      var hit := CachedTopic(first.cache, key, top.value);
      if hit.Some? then Resolved(AsPair(hit), first.cache, first.requests)
      else
        var second := EnsureCacheOf(first.cache, chat, refresh, true, rounds, size);
        Resolved(AsPair(CachedTopic(second.cache, key, top.value)), second.cache, first.requests + second.requests)
  }

  /** The page loop of `_ensure_cache`, building a fresh mapping. */
  method FetchMapping(pages: seq<Page>, rounds: int, size: int) returns (mapping: map<int, TopicInfo>, requests: seq<Request>)
    ensures Fetched(mapping, requests) == Fetch(pages, rounds, size, 0, 0, map[])
  {
    ghost var whole := Fetch(pages, rounds, size, 0, 0, map[]);
    mapping := map[];
    requests := [];
    var offset := 0;
    var round: nat := 0;
    while round < rounds
      invariant whole.mapping == Fetch(pages, rounds, size, round, offset, mapping).mapping
      invariant whole.requests == requests + Fetch(pages, rounds, size, round, offset, mapping).requests
      decreases rounds - round
    {
      var page := PageAt(pages, round);
      var req := Request(offset, size);
      var topics := page.topics;
      ghost var before := requests;
      requests := requests + [req];
      if |topics| == 0 {
        break;
      }
      var m' := mapping;
      var j := 0;
      while j < |topics|
        invariant 0 <= j <= |topics|
        invariant m' == MapTopics(mapping, topics[..j])
      {
        assert topics[..j + 1][..j] == topics[..j];
        var t := topics[j];
        if t.topMessage.Some? {
          m' := m'[t.topMessage.value := TopicInfo(t.id, TitleOf(t))];
        }
        j := j + 1;
      }
      assert topics[..j] == topics;
      if page.count.Some? && page.count.value != 0 && |m'| >= page.count.value {
        mapping := m';
        break;
      }
      FetchGoesOn(pages, rounds, size, round, offset, mapping);
      ghost var rest := Fetch(pages, rounds, size, round + 1, LastId(topics), m');
      assert whole.requests == before + ([req] + rest.requests);
      mapping := m';
      offset := topics[|topics| - 1].id;
      round := round + 1;
    }
  }

  lemma FetchGoesOn(pages: seq<Page>, rounds: int, size: int, round: nat, offset: int, mapping: map<int, TopicInfo>)
    requires round < rounds
    requires |PageAt(pages, round).topics| > 0
    requires !CountReached(PageAt(pages, round).count, |MapTopics(mapping, PageAt(pages, round).topics)|)
    ensures var topics := PageAt(pages, round).topics;
            var rest := Fetch(pages, rounds, size, round + 1, LastId(topics), MapTopics(mapping, topics));
            Fetch(pages, rounds, size, round, offset, mapping) == Fetched(rest.mapping, [Request(offset, size)] + rest.requests)
  {
  }

  class TopicResolver {
    const pages: int
    const pageSize: int
    var cache: Cache

    constructor (pages: int := 5, pageSize: int := 200)
      ensures this.pages == pages && this.pageSize == pageSize && cache == map[]
    {
      this.pages := pages;
      this.pageSize := pageSize;
      cache := map[];
    }

    /** `_ensure_cache`, with `listing` answering its requests. */
    method EnsureCache(chat: Chat, listing: seq<Page>, force: bool) returns (requests: seq<Request>)
      modifies this
      ensures Ensured(cache, requests) == EnsureCacheOf(old(cache), chat, listing, force, pages, pageSize)
    {
      if !(chat.isChannel && chat.forum) {
        return [];
      }
      var key := ChatKeyOfChat(chat);
      if !force && key in cache && |cache[key]| > 0 {
        return [];
      }
      var mapping;
      mapping, requests := FetchMapping(listing, pages, pageSize);
      if |mapping| > 0 {
        cache := cache[key := mapping];
      }
    }

    /** `topmsg_to_topic`: a cached lookup, refreshed once on a miss. */
    method TopmsgToTopic(chat: Chat, top: Option<int>, listing: seq<Page>, refresh: seq<Page>)
      returns (r: (Option<int>, Option<string>), requests: seq<Request>)
      modifies this
      ensures Resolved(r, cache, requests) == TopmsgOf(old(cache), chat, top, listing, refresh, pages, pageSize)
    {
      if top.None? {
        return (None, None), [];
      }
      var key := ChatKeyOfChat(chat);
      requests := EnsureCache(chat, listing, false);
      var info := if key in cache && top.value in cache[key] then Some(cache[key][top.value]) else None;
      if info.Some? {
        return (Some(info.value.topicId), Some(info.value.title)), requests;
      }
      var more := EnsureCache(chat, refresh, true);
      requests := requests + more;
      info := if key in cache && top.value in cache[key] then Some(cache[key][top.value]) else None;
      r := if info.Some? then (Some(info.value.topicId), Some(info.value.title)) else (None, None);
    }
  }

  // ---------------------------------------------------------------------
  // Properties
  // ---------------------------------------------------------------------

  /**
   * A page's topics: the keys gained are exactly the root messages present,
   * and every new or replaced entry is the (id, title) of a listed topic.
   */
  lemma {:induction false} MapTopicsSpec(mapping: map<int, TopicInfo>, ts: seq<Topic>)
    ensures forall top :: top in MapTopics(mapping, ts) <==>
              top in mapping || exists a :: 0 <= a < |ts| && ts[a].topMessage == Some(top)
    ensures forall top :: top in MapTopics(mapping, ts) && (top !in mapping || MapTopics(mapping, ts)[top] != mapping[top]) ==>
              exists a :: 0 <= a < |ts| && ts[a].topMessage == Some(top)
                          && MapTopics(mapping, ts)[top] == TopicInfo(ts[a].id, TitleOf(ts[a]))
  {
    if |ts| > 0 {
      var init := ts[..|ts| - 1];
      var t := ts[|ts| - 1];
      MapTopicsSpec(mapping, init);
      assert forall a :: 0 <= a < |init| ==> init[a] == ts[a];
      var r0 := MapTopics(mapping, init);
      var r := MapTopics(mapping, ts);
      forall top ensures top in r <==> top in mapping || exists a :: 0 <= a < |ts| && ts[a].topMessage == Some(top) {
        if exists a :: 0 <= a < |ts| && ts[a].topMessage == Some(top) {
          var a :| 0 <= a < |ts| && ts[a].topMessage == Some(top);
          if a < |init| {
            assert init[a].topMessage == Some(top);
          }
        }
      }
      forall top | top in r && (top !in mapping || r[top] != mapping[top])
        ensures exists a :: 0 <= a < |ts| && ts[a].topMessage == Some(top) && r[top] == TopicInfo(ts[a].id, TitleOf(ts[a]))
      {
        if t.topMessage == Some(top) {
          assert ts[|ts| - 1].topMessage == Some(top);
        } else {
          var a :| 0 <= a < |init| && init[a].topMessage == Some(top) && r0[top] == TopicInfo(init[a].id, TitleOf(init[a]));
          assert ts[a] == init[a];
        }
      }
    }
  }

  /** The rounds a page loop may still use. */
  function RoundsLeft(rounds: int, round: nat): nat
  {
    if rounds > round then rounds - round else 0
  }

  /**
   * The requests of the page loop: at most the rounds left, each for
   * `size` topics, the first from `offset`, each later one from the last
   * topic of the page before, and none after an empty page.
   */
  lemma {:induction false} FetchRequests(pages: seq<Page>, rounds: int, size: int, round: nat, offset: int, mapping: map<int, TopicInfo>)
    ensures var f := Fetch(pages, rounds, size, round, offset, mapping);
            && |f.requests| <= RoundsLeft(rounds, round)
            && (round < rounds ==> |f.requests| >= 1)
            && (forall k :: 0 <= k < |f.requests| ==> f.requests[k].limit == size)
            && (|f.requests| > 0 ==> f.requests[0].offsetTopic == offset)
            && (forall k :: 0 < k < |f.requests| ==> f.requests[k].offsetTopic == LastId(PageAt(pages, round + k - 1).topics))
            && (forall k :: round <= k < round + |f.requests| - 1 ==> |PageAt(pages, k).topics| > 0)
            && (0 < |f.requests| && round + |f.requests| < rounds ==>
                  var last := PageAt(pages, round + |f.requests| - 1);
                  |last.topics| == 0 || CountReached(last.count, |f.mapping|))
    decreases rounds - round
  {
    if round < rounds {
      var page := PageAt(pages, round);
      if |page.topics| > 0 {
        var m' := MapTopics(mapping, page.topics);
        if !CountReached(page.count, |m'|) {
          var next := LastId(page.topics);
          FetchRequests(pages, rounds, size, round + 1, next, m');
          var rest := Fetch(pages, rounds, size, round + 1, next, m');
          var f := Fetch(pages, rounds, size, round, offset, mapping);
          assert f.requests == [Request(offset, size)] + rest.requests && f.mapping == rest.mapping;
          assert forall k :: 0 < k < |f.requests| ==> f.requests[k] == rest.requests[k - 1];
        }
      }
    }
  }

  /**
   * `_ensure_cache` touches at most the chat's own entry; it writes that
   * entry only with a non-empty mapping, so a chat that had topics keeps
   * some, and an empty listing changes nothing.  A forum chat that is
   * forced, or has no topics cached, gets the crawled mapping when it is
   * non-empty, after exactly the crawl's requests.  It makes at most
   * `rounds` requests, and none unless forced or the chat has no topics cached.
   */
  lemma EnsureCacheFrame(cache: Cache, chat: Chat, pages: seq<Page>, force: bool, rounds: int, size: int)
    ensures var e := EnsureCacheOf(cache, chat, pages, force, rounds, size);
            var key := ChatKeyOfChat(chat);
            var f := Fetch(pages, rounds, size, 0, 0, map[]);
            && (|f.mapping| == 0 ==> e.cache == cache)
            && (IsForum(chat) && (force || key !in cache || |cache[key]| == 0) ==>
                  e.requests == f.requests && (|f.mapping| > 0 ==> e.cache == cache[key := f.mapping]))
            && (forall k :: k != key ==> (k in e.cache <==> k in cache) && (k in cache ==> e.cache[k] == cache[k]))
            && (key in e.cache <==> key in cache || (IsForum(chat) && |Fetch(pages, rounds, size, 0, 0, map[]).mapping| > 0 && e.requests != []))
            && (key in e.cache && (key !in cache || e.cache[key] != cache[key]) ==> |e.cache[key]| > 0)
            && |e.requests| <= RoundsLeft(rounds, 0)
            && (forall k :: 0 <= k < |e.requests| ==> e.requests[k].limit == size)
            && (!IsForum(chat) ==> e == Ensured(cache, []))
            && (!force && key in cache && |cache[key]| > 0 ==> e == Ensured(cache, []))
  {
    FetchRequests(pages, rounds, size, 0, 0, map[]);
  }

  /**
   * `topmsg_to_topic`: a missing id gives `(None, None)` without any
   * request; a hit after the first fill is answered without a refresh;
   * otherwise exactly one forced refresh follows.  The answer is the pair
   * cached for the root message at the end, `(None, None)` when absent, and
   * at most twice the page budget of requests is made.
   */
  lemma TopmsgSpec(cache: Cache, chat: Chat, top: Option<int>, listing: seq<Page>, refresh: seq<Page>, rounds: int, size: int)
    ensures var r := TopmsgOf(cache, chat, top, listing, refresh, rounds, size);
            && (top.None? ==> r == Resolved((None, None), cache, []))
            && (top.Some? ==> r.pair == AsPair(CachedTopic(r.cache, ChatKeyOfChat(chat), top.value)))
            && (top.Some? && CachedTopic(EnsureCacheOf(cache, chat, listing, false, rounds, size).cache, ChatKeyOfChat(chat), top.value).Some? ==>
                  r.requests == EnsureCacheOf(cache, chat, listing, false, rounds, size).requests)
            && (top.Some? && CachedTopic(EnsureCacheOf(cache, chat, listing, false, rounds, size).cache, ChatKeyOfChat(chat), top.value).None? ==>
                  var first := EnsureCacheOf(cache, chat, listing, false, rounds, size);
                  var second := EnsureCacheOf(first.cache, chat, refresh, true, rounds, size);
                  r.cache == second.cache && r.requests == first.requests + second.requests)
            && |r.requests| <= 2 * RoundsLeft(rounds, 0)
            && (forall k :: 0 <= k < |r.requests| ==> r.requests[k].limit == size)
  {
    if top.Some? {
      var first := EnsureCacheOf(cache, chat, listing, false, rounds, size);
      EnsureCacheFrame(cache, chat, listing, false, rounds, size);
      EnsureCacheFrame(first.cache, chat, refresh, true, rounds, size);
      var second := EnsureCacheOf(first.cache, chat, refresh, true, rounds, size);
      var all := first.requests + second.requests;
      assert forall k :: |first.requests| <= k < |all| ==> all[k] == second.requests[k - |first.requests|];
    }
  }

  /**
   * A root message already held in the chat's cache is answered from the
   * cache, with no request at all, whether or not the chat is a forum.
   */
  lemma CachedHitNoRequest(cache: Cache, chat: Chat, top: int, listing: seq<Page>, refresh: seq<Page>, rounds: int, size: int)
    requires CachedTopic(cache, ChatKeyOfChat(chat), top).Some?
    ensures TopmsgOf(cache, chat, Some(top), listing, refresh, rounds, size)
            == Resolved(AsPair(CachedTopic(cache, ChatKeyOfChat(chat), top)), cache, [])
  {
  }
}

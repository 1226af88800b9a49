/**
 * The routing settings read at start-up (src/config.py), computed from the
 * raw environment texts.  An unset variable is `None`; `loads` stands for
 * `json.loads` (`None` where it raises) and `repr` for Python's `repr` of
 * floats and containers.  An exception outside a `try` aborts the start-up;
 * such settings are a `Result`.
 */
module Config {
  import opened Wrappers
  import opened Text
  import opened PyValues
  import opened ChatKeys

  /** A `(chat, topic)` key of `TARGET_MAP` and `NOTIFY_ONLY`; `None` matches the whole chat. */
  datatype RouteKey = RouteKey(chat: ChatRef, topic: Option<int>)

  /** `os.getenv(name, default).strip()`. */
  function EnvText(raw: Option<string>, default: string): string
  {
    Strip(if raw.Some? then raw.value else default)
  }

  /**
   * The rule for a source or destination: `int(s)` when `s.lstrip("-")` is
   * digits, otherwise `s` without leading `@`, case kept; `int()` raises
   * for a guarded text it cannot read.
   */
  function PlainChat(s: string): (r: Result<ChatRef, PyError>)
    ensures IsIntLike(s) ==> (r.Ok? <==> IsIntText(s))
    ensures IsIntLike(s) && r.Ok? ==> r.value.Id? && PyInt(s) == Some(r.value.id)
    ensures !IsIntLike(s) ==> r == Ok(Handle(LStrip(s, '@')))
  {
    if IsIntLike(s) then
      PyIntOfIntLike(s);
      match PyInt(s)
      case Some(n) => Ok(Id(n))
      case None => Err(InvalidIntLiteral(s))
    else Ok(Handle(LStrip(s, '@')))
  }

  /** `SOURCE_CHAT`: `None` when empty, otherwise the plain rule. */
  function SourceChatSetting(raw: Option<string>): Result<Option<ChatRef>, PyError>
  {
    var s := EnvText(raw, "");
    if |s| == 0 then Ok(None)
    else
      var c :- PlainChat(s);
      Ok(Some(c))
  }

  /** `TOPIC_MAP`: the decoded JSON, `None` when empty or not valid JSON. */
  function TopicMapSetting(raw: Option<string>, loads: string -> Option<PyValue>): PyValue
  {
    var s := EnvText(raw, "");
    if |s| == 0 then PNone
    else match loads(s)
      case Some(v) => v
      case None => PNone
  }

  /** `TOPIC_ID`: only without a truthy `TOPIC_MAP`, and only for an int-like text. */
  function TopicIdSetting(raw: Option<string>, topicMap: PyValue): Result<Option<int>, PyError>
  {
    var s := EnvText(raw, "");
    if Truthy(topicMap) then Ok(None)
    else if |s| > 0 && IsIntLike(s) then
      match PyInt(s)
      case Some(n) => Ok(Some(n))
      case None => Err(InvalidIntLiteral(s))
    else Ok(None)
  }

  /** `TARGET_CHAT`: `"me"` when unset, then the plain rule. */
  function TargetChatSetting(raw: Option<string>): Result<ChatRef, PyError>
  {
    PlainChat(EnvText(raw, "me"))
  }

  // ---------------------------------------------------------------------
  // "chat|topic" keys
  // ---------------------------------------------------------------------

  /**
   * One key of `TARGET_MAP` or `NOTIFY_ONLY`: split at the first `|`, the
   * chat part normalised (a failing `int()` raises), the topic part through
   * `int()`; `None` when the topic part is not an integer (the entry is
   * skipped).  A key without `|` names the whole chat.
   */
  function ParseChatTopicKey(key: string): Result<Option<RouteKey>, PyError>
  {
    match IndexOf(key, '|')
    case None =>
      var ck :- NormalizeChat(key);
      Ok(Some(RouteKey(ck, None)))
    case Some(i) =>
      var ck :- NormalizeChat(key[..i]);
      match PyInt(key[i + 1..])
      case None => Ok(None)
      case Some(tk) => Ok(Some(RouteKey(ck, Some(tk))))
  }

  // ---------------------------------------------------------------------
  // TARGET_MAP
  // ---------------------------------------------------------------------

  /** One `TARGET_MAP` entry read: the destination first, then the key; each may raise. */
  datatype TargetItem = TargetItem(target: Result<ChatRef, PyError>, key: Result<Option<RouteKey>, PyError>)

  /** The body of the loop for one `k, v`: `v` through the plain rule, `k` as a "chat|topic" key. */
  function ReadTargetEntry(entry: (PyValue, PyValue), repr: PyValue -> string): TargetItem
  {
    TargetItem(PlainChat(Strip(Str(entry.1, repr))), ParseChatTopicKey(Strip(Str(entry.0, repr))))
  }

  /** Inserting the read entries in order; the first exception ends the loop with that exception. */
  function GatherTargets(items: seq<TargetItem>): Result<map<RouteKey, ChatRef>, PyError>
  {
    if |items| == 0 then Ok(map[])
    else
      var acc :- GatherTargets(items[..|items| - 1]);
      var target :- items[|items| - 1].target;
      var key :- items[|items| - 1].key;
      Ok(if key.Some? then acc[key.value := target] else acc)
  }

  /** Every entry read, in the order of the dict. */
  function TargetItems(entries: seq<(PyValue, PyValue)>, repr: PyValue -> string): (r: seq<TargetItem>)
    ensures |r| == |entries| && forall j :: 0 <= j < |r| ==> r[j] == ReadTargetEntry(entries[j], repr)
  {
    seq(|entries|, j requires 0 <= j < |entries| => ReadTargetEntry(entries[j], repr))
  }

  /** The `for k, v in raw.items():` loop. */
  function TargetEntries(entries: seq<(PyValue, PyValue)>, repr: PyValue -> string): Result<map<RouteKey, ChatRef>, PyError>
  {
    GatherTargets(TargetItems(entries, repr))
  }

  /** `TARGET_MAP`: empty when unset, not a JSON object, or when any entry raises. */
  function TargetMapSetting(raw: Option<string>, loads: string -> Option<PyValue>, repr: PyValue -> string): map<RouteKey, ChatRef>
  {
    var s := EnvText(raw, "");
    if |s| == 0 then map[]
    else match loads(s)
      case Some(PDict(entries)) =>
        (match TargetEntries(entries, repr)
         case Ok(m) => m
         case Err(_) => map[])
      case _ => map[]
  }

  lemma GatherTargetsSnoc(items: seq<TargetItem>, n: nat)
    requires n < |items|
    ensures GatherTargets(items[..n + 1]) ==
              match GatherTargets(items[..n])
              case Err(e) => Err(e)
              case Ok(acc) =>
                match items[n].target
                case Err(e) => Err(e)
                case Ok(target) =>
                  match items[n].key
                  case Err(e) => Err(e)
                  case Ok(key) => Ok(if key.Some? then acc[key.value := target] else acc)
  {
    assert items[..n + 1][..n] == items[..n];
  }

  lemma {:induction false} GatherTargetsErrSticks(items: seq<TargetItem>, n: nat)
    requires n <= |items| && GatherTargets(items[..n]).Err?
    ensures GatherTargets(items) == GatherTargets(items[..n])
    decreases |items| - n
  {
    if n < |items| {
      GatherTargetsSnoc(items, n);
      GatherTargetsErrSticks(items, n + 1);
    } else {
      assert items[..n] == items;
    }
  }

  /** The `TARGET_MAP` block: the JSON object's entries inserted, the map reset on an exception. */
  method LoadTargetMap(raw: Option<string>, loads: string -> Option<PyValue>, repr: PyValue -> string)
    returns (targets: map<RouteKey, ChatRef>)
    ensures targets == TargetMapSetting(raw, loads, repr)
  {
    var s := EnvText(raw, "");
    targets := map[];
    if |s| == 0 {
      return;
    }
    var parsed := loads(s);
    if !(parsed.Some? && parsed.value.PDict?) {
      return;
    }
    var inserted := InsertTargets(parsed.value.entries, repr);
    if inserted.Ok? {
      targets := inserted.value;
    }
    TargetMapOfEntries(raw, loads, repr);
  }

  /** What `TARGET_MAP` is once the setting reads as a JSON object. */
  lemma TargetMapOfEntries(raw: Option<string>, loads: string -> Option<PyValue>, repr: PyValue -> string)
    requires |EnvText(raw, "")| > 0 && loads(EnvText(raw, "")).Some? && loads(EnvText(raw, "")).value.PDict?
    ensures var r := TargetEntries(loads(EnvText(raw, "")).value.entries, repr);
            TargetMapSetting(raw, loads, repr) == if r.Ok? then r.value else map[]
  {
  }

  /** The `for k, v in raw.items():` loop, inserting entry by entry; an exception ends it. */
  method InsertTargets(entries: seq<(PyValue, PyValue)>, repr: PyValue -> string)
    returns (r: Result<map<RouteKey, ChatRef>, PyError>)
    ensures r == TargetEntries(entries, repr)
  {
    ghost var items := TargetItems(entries, repr);
    var targets: map<RouteKey, ChatRef> := map[];
    var i := 0;
    while i < |entries|
      invariant 0 <= i <= |entries|
      invariant GatherTargets(items[..i]) == Ok(targets)
    {
      var target := PlainChat(Strip(Str(entries[i].1, repr)));
      if target.Err? {
        GatherTargetsStops(items, i, targets);
        return Err(target.error);
      }
      var key := ParseChatTopicKey(Strip(Str(entries[i].0, repr)));
      if key.Err? {
        GatherTargetsStops(items, i, targets);
        return Err(key.error);
      }
      GatherTargetsStep(items, i, targets);
      if key.value.Some? {
        targets := targets[key.value.value := target.value];
      }
      i := i + 1;
    }
    assert items[..i] == items;
    r := Ok(targets);
  }

  /** An entry that reads without an exception extends the map, or leaves it for an unparsable key. */
  lemma GatherTargetsStep(items: seq<TargetItem>, n: nat, acc: map<RouteKey, ChatRef>)
    requires n < |items| && GatherTargets(items[..n]) == Ok(acc)
    requires items[n].target.Ok? && items[n].key.Ok?
    ensures GatherTargets(items[..n + 1]) ==
              Ok(if items[n].key.value.Some? then acc[items[n].key.value.value := items[n].target.value] else acc)
  {
    GatherTargetsSnoc(items, n);
  }

  /** The first entry that raises ends the loop with its exception, value first. */
  lemma GatherTargetsStops(items: seq<TargetItem>, n: nat, acc: map<RouteKey, ChatRef>)
    requires n < |items| && GatherTargets(items[..n]) == Ok(acc)
    requires items[n].target.Err? || items[n].key.Err?
    ensures GatherTargets(items) == Err(if items[n].target.Err? then items[n].target.error else items[n].key.error)
  {
    GatherTargetsSnoc(items, n);
    GatherTargetsErrSticks(items, n + 1);
  }

  // ---------------------------------------------------------------------
  // NOTIFY_ONLY
  // ---------------------------------------------------------------------

  /**
   * The keys listed by `NOTIFY_ONLY`: a JSON object's keys, a JSON list's
   * items, nothing for other JSON, and the non-empty comma-separated parts
   * of a text that is not JSON; each as `str(key)`.
   */
  function NotifyKeys(s: string, loads: string -> Option<PyValue>, repr: PyValue -> string): seq<string>
  {
    match loads(s)
    case Some(PDict(entries)) => seq(|entries|, j requires 0 <= j < |entries| => Str(entries[j].0, repr))
    case Some(PList(items)) => seq(|items|, j requires 0 <= j < |items| => Str(items[j], repr))
    case Some(_) => []
    case None => CommaItems(s)
  }

  /** The `for key in keys:` loop: unparsable topics skipped, the first exception raised. */
  function NotifySet(keys: seq<string>): Result<set<RouteKey>, PyError>
  {
    GatherSet(seq(|keys|, j requires 0 <= j < |keys| => ParseChatTopicKey(keys[j])))
  }

  /** `NOTIFY_ONLY`: empty when unset; an exception here aborts the start-up. */
  function NotifyOnlySetting(raw: Option<string>, loads: string -> Option<PyValue>, repr: PyValue -> string): Result<set<RouteKey>, PyError>
  {
    var s := EnvText(raw, "");
    if |s| == 0 then Ok({}) else NotifySet(NotifyKeys(s, loads, repr))
  }

  /** The `NOTIFY_ONLY` block: the keys, then `NOTIFY_ONLY.add` key by key. */
  method LoadNotifyOnly(raw: Option<string>, loads: string -> Option<PyValue>, repr: PyValue -> string)
    returns (r: Result<set<RouteKey>, PyError>)
    ensures r == NotifyOnlySetting(raw, loads, repr)
  {
    var s := EnvText(raw, "");
    if |s| == 0 {
      return Ok({});
    }
    var keys := NotifyKeys(s, loads, repr);
    ghost var parsed := seq(|keys|, j requires 0 <= j < |keys| => ParseChatTopicKey(keys[j]));
    var notify: set<RouteKey> := {};
    var i := 0;
    while i < |keys|
      invariant 0 <= i <= |keys|
      invariant GatherSet(parsed[..i]) == Ok(notify)
    {
      GatherSetSnoc(parsed, i);
      var key := ParseChatTopicKey(keys[i]);
      if key.Err? {
        GatherSetErrSticks(parsed, i + 1);
        return Err(key.error);
      }
      if key.value.Some? {
        notify := notify + {key.value.value};
      }
      i := i + 1;
    }
    assert parsed[..i] == parsed;
    r := Ok(notify);
  }

  // ---------------------------------------------------------------------
  // Properties
  // ---------------------------------------------------------------------

  /**
   * A `SOURCE_CHAT` that passes `isdigit()` but holds a superscript digit,
   * such as `"²"`, passes the guard, and `int()` then raises.
   */
  lemma SuperscriptSourceRaises(s: string)
    requires IsDigits(s) && !IsDecimal(s)
    ensures SourceChatSetting(Some(s)) == Err(InvalidIntLiteral(s))
  {
    assert forall i :: 0 <= i < |s| ==> !IsSpace(s[i]) by {
      forall i | 0 <= i < |s| ensures !IsSpace(s[i]) {
        assert IsPyDigit(s[i]);
      }
    }
    StripNoSpace(s);
    assert LStrip(s, '-') == s by {
      assert LeadingCount(s, '-') == 0;
    }
    PyIntOfIsDigits(s);
  }

  /** Unset chats: no source, and the destination `me`. */
  lemma UnsetChats()
    ensures SourceChatSetting(None) == Ok(None)
    ensures TargetChatSetting(None) == Ok(Handle("me"))
  {
    StripNoSpace("");
    StripNoSpace("me");
    PlainChatOfName("me");
  }

  /** A name starting with neither `-`, `@` nor a digit is kept as it is. */
  lemma PlainChatOfName(s: string)
    requires |s| > 0 && s[0] != '-' && s[0] != '@' && !IsPyDigit(s[0])
    ensures PlainChat(s) == Ok(Handle(s))
  {
    assert !IsIntLike(s) by {
      assert LeadingCount(s, '-') == 0;
      assert !IsPyDigit(LStrip(s, '-')[0]);
    }
    assert LStrip(s, '@') == s by {
      assert LeadingCount(s, '@') == 0;
    }
  }

  /** Unset maps: no topic map, no destination overrides, nothing notify-only. */
  lemma UnsetMaps(loads: string -> Option<PyValue>, repr: PyValue -> string)
    ensures TopicMapSetting(None, loads) == PNone
    ensures TargetMapSetting(None, loads, repr) == map[]
    ensures NotifyOnlySetting(None, loads, repr) == Ok({})
  {
    StripNoSpace("");
  }

  /** Sources and destinations keep the case of a username; only the leading `@` goes. */
  lemma SourceKeepsCase()
    ensures SourceChatSetting(Some("@Canal")) == Ok(Some(Handle("Canal")))
  {
    var s := "@Canal";
    assert EnvText(Some(s), "") == s by {
      StripNoSpace(s);
    }
    assert PlainChat(s) == Ok(Handle("Canal")) by {
      assert !IsIntLike(s) by {
        assert LeadingCount(s, '-') == 0;
        assert !IsPyDigit(LStrip(s, '-')[0]);
      }
      assert LStrip(s, '@') == "Canal" by {
        assert LeadingCount("Canal", '@') == 0;
        assert LeadingCount(s, '@') == 1;
      }
    }
  }

  /** Routing keys, by contrast, lower-case a username. */
  lemma KeyLowercases()
    ensures NormalizeChat("@Canal") == Ok(Handle("canal"))
  {
    var s := "@Canal";
    assert !IsIntLike(s) by {
      assert LeadingCount(s, '-') == 0;
      assert !IsPyDigit(LStrip(s, '-')[0]);
    }
    assert LStrip(s, '@') == "Canal" by {
      assert LeadingCount("Canal", '@') == 0;
      assert LeadingCount(s, '@') == 1;
    }
    assert Lower("Canal") == "canal";
  }

  /** `TOPIC_ID` is ignored whenever `TOPIC_MAP` is truthy. */
  lemma TopicMapWins(raw: Option<string>, topicMap: PyValue)
    requires Truthy(topicMap)
    ensures TopicIdSetting(raw, topicMap) == Ok(None)
  {
  }

  /**
   * Without a truthy `TOPIC_MAP`, an int-like text with at most one `-`
   * becomes the topic id, an int-like text with several leading `-` makes
   * `int()` raise, and a text that is not int-like gives none.
   */
  lemma TopicIdFromText(raw: Option<string>, topicMap: PyValue)
    requires !Truthy(topicMap)
    ensures var s := EnvText(raw, "");
            IsIntText(s) ==>
              TopicIdSetting(raw, topicMap).Ok? && TopicIdSetting(raw, topicMap).value.Some?
              && Some(TopicIdSetting(raw, topicMap).value.value) == PyInt(s)
    ensures var s := EnvText(raw, "");
            IsIntLike(s) && LeadingCount(s, '-') >= 2 ==> TopicIdSetting(raw, topicMap) == Err(InvalidIntLiteral(s))
    ensures var s := EnvText(raw, "");
            IsIntLike(s) && !IsIntText(s) ==> TopicIdSetting(raw, topicMap) == Err(InvalidIntLiteral(s))
    ensures !IsIntLike(EnvText(raw, "")) ==> TopicIdSetting(raw, topicMap) == Ok(None)
  {
    var s := EnvText(raw, "");
    if IsIntLike(s) && !Truthy(topicMap) {
      assert |s| > 0;
      PyIntOfIntLike(s);
      var r := TopicIdSetting(raw, topicMap);
      if IsIntText(s) {
        assert r == Ok(Some(PyInt(s).value));
      } else {
        assert r == Err(InvalidIntLiteral(s));
      }
    }
  }

  /** Text that is not JSON gives no topic map, so `TOPIC_ID` decides. */
  lemma InvalidTopicMapFallsBack(raw: string, tid: Option<string>, loads: string -> Option<PyValue>)
    requires loads(Strip(raw)) == None
    ensures TopicMapSetting(Some(raw), loads) == PNone
    ensures TopicIdSetting(tid, TopicMapSetting(Some(raw), loads)) == TopicIdSetting(tid, PNone)
  {
  }

  /** A key is split at its first `|`: the chat part is normalised, the rest read as the topic. */
  lemma SplitAtFirstBar(c: string, rest: string)
    requires forall i :: 0 <= i < |c| ==> c[i] != '|'
    ensures ParseChatTopicKey(c + "|" + rest) ==
              match NormalizeChat(c)
              case Err(e) => Err(e)
              case Ok(ck) => Ok(match PyInt(rest) case None => None case Some(tk) => Some(RouteKey(ck, Some(tk))))
  {
    var key := c + "|" + rest;
    assert key[..|c|] == c && key[|c| + 1..] == rest;
    FirstBarAt(c, rest);
    ChatTopicKeyAt(key, |c|);
  }

  lemma FirstBarAt(c: string, rest: string)
    requires forall i :: 0 <= i < |c| ==> c[i] != '|'
    ensures IndexOf(c + "|" + rest, '|') == Some(|c|)
  {
    var key := c + "|" + rest;
    assert key[|c|] == '|';
    assert forall i :: 0 <= i < |c| ==> key[i] == c[i];
  }

  lemma ChatTopicKeyAt(key: string, i: nat)
    requires IndexOf(key, '|') == Some(i)
    ensures ParseChatTopicKey(key) ==
              match NormalizeChat(key[..i])
              case Err(e) => Err(e)
              case Ok(ck) => Ok(match PyInt(key[i + 1..]) case None => None case Some(tk) => Some(RouteKey(ck, Some(tk))))
  {
    var nc := NormalizeChat(key[..i]);
    if nc.Ok? {
      var pi := PyInt(key[i + 1..]);
      if pi.Some? {
        assert ParseChatTopicKey(key) == Ok(Some(RouteKey(nc.value, Some(pi.value))));
      } else {
        assert ParseChatTopicKey(key) == Ok(None);
      }
    } else {
      assert ParseChatTopicKey(key) == Err(nc.error);
    }
  }

  /** A key without `|` names the whole chat. */
  lemma WholeChatKey(c: string)
    requires forall i :: 0 <= i < |c| ==> c[i] != '|'
    ensures ParseChatTopicKey(c) ==
              match NormalizeChat(c)
              case Err(e) => Err(e)
              case Ok(ck) => Ok(Some(RouteKey(ck, None)))
  {
  }

  lemma IntToStringNoBar(i: int)
    ensures forall k :: 0 <= k < |IntToString(i)| ==> IntToString(i)[k] != '|'
  {
    var d := NatToString(if i < 0 then -i else i);
    assert forall k :: 0 <= k < |d| ==> IsDigit(d[k]);
    if i < 0 {
      assert forall k :: 1 <= k < |IntToString(i)| ==> IntToString(i)[k] == d[k - 1];
    }
  }

  /** `"<chat id>|<topic id>"` reads back as that pair, and `"<chat id>"` as the whole chat. */
  lemma ChatTopicKeyRoundTrip(chat: int, topic: int)
    ensures ParseChatTopicKey(IntToString(chat) + "|" + IntToString(topic)) == Ok(Some(RouteKey(Id(chat), Some(topic))))
    ensures ParseChatTopicKey(IntToString(chat)) == Ok(Some(RouteKey(Id(chat), None)))
  {
    IntToStringNoBar(chat);
    NormalizeChatOfId(chat);
    PyIntOfIntToString(topic);
    SplitAtFirstBar(IntToString(chat), IntToString(topic));
    WholeChatKey(IntToString(chat));
  }

  /**
   * Inserting read `TARGET_MAP` entries: an exception exactly when some
   * entry raises; otherwise a pair is stored exactly when some entry's key
   * parses to it.
   */
  lemma {:induction false} GatherTargetsSpec(items: seq<TargetItem>)
    ensures GatherTargets(items).Err? <==> exists j :: 0 <= j < |items| && (items[j].target.Err? || items[j].key.Err?)
    ensures GatherTargets(items).Ok? ==>
              forall rk :: rk in GatherTargets(items).value <==> exists j :: 0 <= j < |items| && items[j].key == Ok(Some(rk))
  {
    if |items| > 0 {
      var n := |items| - 1;
      var init := items[..n];
      GatherTargetsSpec(init);
      GatherTargetsSnoc(items, n);
      assert items[..n + 1] == items;
      assert forall j :: 0 <= j < n ==> init[j] == items[j];
      if GatherTargets(items).Ok? {
        var m := GatherTargets(items).value;
        var acc := GatherTargets(init).value;
        assert m == if items[n].key.value.Some? then acc[items[n].key.value.value := items[n].target.value] else acc;
        forall rk
          ensures rk in m <==> exists j :: 0 <= j < |items| && items[j].key == Ok(Some(rk))
        {
          if exists j :: 0 <= j < |items| && items[j].key == Ok(Some(rk)) {
            var j :| 0 <= j < |items| && items[j].key == Ok(Some(rk));
            if j < n {
              assert init[j].key == Ok(Some(rk));
            }
          }
        }
      }
    }
  }

  /**
   * A stored pair holds the destination of the last entry whose key parses
   * to it, since a later equal key overwrites an earlier one.
   */
  lemma {:induction false} GatherTargetsLast(items: seq<TargetItem>)
    ensures GatherTargets(items).Ok? ==>
              forall rk :: rk in GatherTargets(items).value ==>
                exists j :: 0 <= j < |items| && items[j].key == Ok(Some(rk)) && items[j].target == Ok(GatherTargets(items).value[rk])
                            && forall j' :: j < j' < |items| ==> items[j'].key != Ok(Some(rk))
  {
    if |items| > 0 {
      var n := |items| - 1;
      var init := items[..n];
      GatherTargetsLast(init);
      GatherTargetsSnoc(items, n);
      assert items[..n + 1] == items;
      if GatherTargets(items).Ok? {
        var m := GatherTargets(items).value;
        var acc := GatherTargets(init).value;
        assert m == if items[n].key.value.Some? then acc[items[n].key.value.value := items[n].target.value] else acc;
        forall rk | rk in m
          ensures exists j :: 0 <= j < |items| && items[j].key == Ok(Some(rk)) && items[j].target == Ok(m[rk])
                              && forall j' :: j < j' < |items| ==> items[j'].key != Ok(Some(rk))
        {
          if items[n].key.value == Some(rk) {
            assert items[n].key == Ok(Some(rk)) && items[n].target == Ok(m[rk]);
          } else {
            var j :| 0 <= j < |init| && init[j].key == Ok(Some(rk)) && init[j].target == Ok(acc[rk])
                     && forall j' :: j < j' < |init| ==> init[j'].key != Ok(Some(rk));
            assert items[j] == init[j] && m[rk] == acc[rk];
            forall j' | j < j' < |items| ensures items[j'].key != Ok(Some(rk)) {
              if j' < n {
                assert items[j'] == init[j'];
              }
            }
          }
        }
      }
    }
  }

  /** The `TARGET_MAP` loop raises exactly when some entry's value or key raises. */
  lemma TargetEntriesRaise(entries: seq<(PyValue, PyValue)>, repr: PyValue -> string)
    ensures TargetEntries(entries, repr).Err? <==>
              exists j :: 0 <= j < |entries| && (ReadTargetEntry(entries[j], repr).target.Err? || ReadTargetEntry(entries[j], repr).key.Err?)
  {
    GatherTargetsSpec(TargetItems(entries, repr));
  }

  /**
   * When the `TARGET_MAP` loop ends without an exception, a pair is stored
   * exactly when some entry's key parses to it.
   */
  lemma TargetEntriesPairs(entries: seq<(PyValue, PyValue)>, repr: PyValue -> string, rk: RouteKey)
    requires TargetEntries(entries, repr).Ok?
    ensures rk in TargetEntries(entries, repr).value <==>
              exists j :: 0 <= j < |entries| && ReadTargetEntry(entries[j], repr).key == Ok(Some(rk))
  {
    var items := TargetItems(entries, repr);
    assert TargetEntries(entries, repr) == GatherTargets(items);
    GatherTargetsSpec(items);
  }

  /**
   * A pair the `TARGET_MAP` loop stores holds the normalised value of the
   * last entry whose key parses to it.
   */
  lemma TargetEntriesLast(entries: seq<(PyValue, PyValue)>, repr: PyValue -> string, rk: RouteKey)
    requires TargetEntries(entries, repr).Ok? && rk in TargetEntries(entries, repr).value
    ensures exists j :: 0 <= j < |entries| && ReadTargetEntry(entries[j], repr).key == Ok(Some(rk))
                        && ReadTargetEntry(entries[j], repr).target == Ok(TargetEntries(entries, repr).value[rk])
                        && forall j' :: j < j' < |entries| ==> ReadTargetEntry(entries[j'], repr).key != Ok(Some(rk))
  {
    var items := TargetItems(entries, repr);
    assert TargetEntries(entries, repr) == GatherTargets(items);
    var m := TargetEntries(entries, repr).value;
    GatherTargetsLast(items);
    var j :| 0 <= j < |items| && items[j].key == Ok(Some(rk)) && items[j].target == Ok(m[rk])
             && forall j' :: j < j' < |items| ==> items[j'].key != Ok(Some(rk));
    assert items[j] == ReadTargetEntry(entries[j], repr);
    forall j' | j < j' < |entries| ensures ReadTargetEntry(entries[j'], repr).key != Ok(Some(rk)) {
      assert items[j'] == ReadTargetEntry(entries[j'], repr);
    }
  }

  /**
   * An entry whose key has no `|` and reads as a chat is stored under that
   * whole chat, `(chat, None)`.
   */
  lemma WholeChatEntryStored(entries: seq<(PyValue, PyValue)>, repr: PyValue -> string, j: nat)
    requires TargetEntries(entries, repr).Ok? && j < |entries|
    requires var k := Strip(Str(entries[j].0, repr));
             (forall i :: 0 <= i < |k| ==> k[i] != '|') && NormalizeChat(k).Ok?
    ensures RouteKey(NormalizeChat(Strip(Str(entries[j].0, repr))).value, None) in TargetEntries(entries, repr).value
  {
    var k := Strip(Str(entries[j].0, repr));
    WholeChatKey(k);
    TargetEntriesPairs(entries, repr, RouteKey(NormalizeChat(k).value, None));
  }

  /**
   * The stored `TARGET_MAP`: empty unless the setting is a JSON object none
   * of whose entries raises, in which case it is that loop's map.
   */
  lemma TargetMapSpec(raw: Option<string>, loads: string -> Option<PyValue>, repr: PyValue -> string)
    ensures var s := EnvText(raw, "");
            var m := TargetMapSetting(raw, loads, repr);
            m != map[] ==>
              |s| > 0 && loads(s).Some? && loads(s).value.PDict?
              && TargetEntries(loads(s).value.entries, repr) == Ok(m)
              && forall j :: 0 <= j < |loads(s).value.entries| ==>
                   ReadTargetEntry(loads(s).value.entries[j], repr).target.Ok?
                   && ReadTargetEntry(loads(s).value.entries[j], repr).key.Ok?
  {
    var s := EnvText(raw, "");
    TargetMapFromEntries(raw, loads, repr);
    if TargetMapSetting(raw, loads, repr) != map[] {
      TargetEntriesRaise(loads(s).value.entries, repr);
    }
  }

  /** A non-empty `TARGET_MAP` is the map of a JSON object's entries. */
  lemma TargetMapFromEntries(raw: Option<string>, loads: string -> Option<PyValue>, repr: PyValue -> string)
    ensures var s := EnvText(raw, "");
            var m := TargetMapSetting(raw, loads, repr);
            m != map[] ==>
              |s| > 0 && loads(s).Some? && loads(s).value.PDict?
              && TargetEntries(loads(s).value.entries, repr) == Ok(m)
  {
  }

  /**
   * `NOTIFY_ONLY`: the loop raises exactly when some key raises; otherwise
   * it holds exactly the parsed keys, entries with a non-integer topic left out.
   */
  lemma NotifySetSpec(keys: seq<string>)
    ensures NotifySet(keys).Err? <==> exists j :: 0 <= j < |keys| && ParseChatTopicKey(keys[j]).Err?
    ensures NotifySet(keys).Ok? ==>
              forall rk :: rk in NotifySet(keys).value <==> exists j :: 0 <= j < |keys| && ParseChatTopicKey(keys[j]) == Ok(Some(rk))
  {
    var parsed := seq(|keys|, j requires 0 <= j < |keys| => ParseChatTopicKey(keys[j]));
    GatherSetSpec(parsed);
    assert forall j :: 0 <= j < |keys| ==> parsed[j] == ParseChatTopicKey(keys[j]);
  }

  /**
   * Where the `NOTIFY_ONLY` keys come from: a JSON object's keys, a JSON
   * list's items, none for other JSON, and for text that is not JSON its
   * non-empty, stripped, comma-free pieces.
   */
  lemma NotifyKeysSpec(s: string, loads: string -> Option<PyValue>, repr: PyValue -> string)
    ensures var keys := NotifyKeys(s, loads, repr);
            match loads(s)
            case Some(PDict(entries)) => |keys| == |entries| && forall j :: 0 <= j < |keys| ==> keys[j] == Str(entries[j].0, repr)
            case Some(PList(items)) => |keys| == |items| && forall j :: 0 <= j < |keys| ==> keys[j] == Str(items[j], repr)
            case Some(_) => keys == []
            case None => keys == CommaItems(s)
                         && forall j :: 0 <= j < |keys| ==>
                              |keys[j]| > 0 && Strip(keys[j]) == keys[j] && forall i :: 0 <= i < |keys[j]| ==> keys[j][i] != ','
  {
    CommaItemsShape(s);
  }
}

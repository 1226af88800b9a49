/**
 * Chat references and the normalisers of the source list and of the
 * per-chat topic whitelist (src/helpers.py, second half).  A chat is named
 * by its numeric id or by its username; usernames are compared without the
 * leading `@` and in lower case.
 */
module ChatKeys {
  import opened Wrappers
  import opened Text
  import opened PyValues

  /** A Python `int | str` chat key. */
  datatype ChatRef = Id(id: int) | Handle(name: string)

  /** `int(s) if s.lstrip("-").isdigit() else s.lstrip("@").lower()`; `int()` may raise. */
  function NormalizeChat(s: string): (r: Result<ChatRef, PyError>)
    ensures IsIntLike(s) ==> (r.Ok? <==> IsIntText(s))
    ensures IsIntLike(s) && r.Ok? ==> r.value.Id?
    ensures !IsIntLike(s) ==> r == Ok(Handle(Lower(LStrip(s, '@'))))
  {
    if IsIntLike(s) then
      PyIntOfIntLike(s);
      match PyInt(s)
      case Some(n) => Ok(Id(n))
      case None => Err(InvalidIntLiteral(s))
    else Ok(Handle(Lower(LStrip(s, '@'))))
  }

  /** The text of a number reads back as that chat id. */
  lemma NormalizeChatOfId(i: int)
    ensures NormalizeChat(IntToString(i)) == Ok(Id(i))
  {
    PyIntOfIntToString(i);
    if i < 0 {
      var ds := NatToString(-i);
      var s := IntToString(i);
      assert s == "-" + ds;
      assert LeadingCount(ds, '-') == 0;
      assert LeadingCount(s, '-') == 1 by {
        assert s[1..] == ds;
      }
      assert LStrip(s, '-') == ds;
    } else {
      assert LeadingCount(NatToString(i), '-') == 0;
    }
  }

  lemma LowerCharIdempotent(c: char)
    ensures LowerChar(LowerChar(c)) == LowerChar(c)
  {
  }

  /** A normalised username normalises to itself: no `@` in front, already lower case. */
  lemma NormalizeHandleStable(s: string)
    requires !IsIntLike(s)
    requires NormalizeChat(s).Ok? && NormalizeChat(s).value.Handle?
    requires !IsIntLike(NormalizeChat(s).value.name)
    ensures NormalizeChat(NormalizeChat(s).value.name) == NormalizeChat(s)
  {
    var h := Lower(LStrip(s, '@'));
    var t := LStrip(s, '@');
    assert LeadingCount(h, '@') == 0 by {
      if |h| > 0 {
        assert t[0] != '@';
        assert h[0] == LowerChar(t[0]);
      }
    }
    assert LStrip(h, '@') == h;
    forall i | 0 <= i < |h| ensures Lower(h)[i] == h[i] {
      LowerCharIdempotent(t[i]);
    }
    assert Lower(h) == h;
  }

  // ---------------------------------------------------------------------
  // normalize_sources
  // ---------------------------------------------------------------------

  /** The stripped, non-blank pieces of a comma-separated list, in order. */
  function Pieces(parts: seq<string>): seq<string>
  {
    if |parts| == 0 then []
    else
      var p := Strip(parts[0]);
      if |p| > 0 then [p] + Pieces(parts[1..]) else Pieces(parts[1..])
  }

  /** Each piece is a non-blank, stripped copy of one of the parts. */
  lemma {:induction false} PiecesShape(parts: seq<string>)
    ensures forall x :: x in Pieces(parts) ==>
              |x| > 0 && Strip(x) == x && exists j :: 0 <= j < |parts| && x == Strip(parts[j])
  {
    if |parts| > 0 {
      PiecesShape(parts[1..]);
      StripStripped(parts[0]);
      forall x | x in Pieces(parts)
        ensures |x| > 0 && Strip(x) == x && exists j :: 0 <= j < |parts| && x == Strip(parts[j])
      {
        if x in Pieces(parts[1..]) {
          var j :| 0 <= j < |parts[1..]| && x == Strip(parts[1..][j]);
          assert x == Strip(parts[j + 1]);
        } else {
          assert x == Strip(parts[0]);
        }
      }
    }
  }

  lemma StripStripped(s: string)
    ensures Strip(Strip(s)) == Strip(s)
  {
    var t := Strip(s);
    if |t| > 0 {
      assert !IsSpace(t[0]) by {
        var u := TrimStart(s);
        assert t == TrimEnd(u) && t == u[..|t|];
      }
    }
    assert TrimStart(t) == t;
  }

  /** `[s.strip() for s in raw.split(",") if s.strip()]`. */
  function CommaItems(raw: string): seq<string>
  {
    Pieces(Split(raw, ','))
  }

  /** No comma-split item is blank, padded, or holds a comma. */
  lemma CommaItemsShape(raw: string)
    ensures forall k :: 0 <= k < |CommaItems(raw)| ==>
              |CommaItems(raw)[k]| > 0 && Strip(CommaItems(raw)[k]) == CommaItems(raw)[k]
              && forall i :: 0 <= i < |CommaItems(raw)[k]| ==> CommaItems(raw)[k][i] != ','
  {
    var parts := Split(raw, ',');
    var items := CommaItems(raw);
    SplitJoin(raw, ',');
    PiecesShape(parts);
    assert forall k :: 0 <= k < |items| ==> items[k] in Pieces(parts);
    forall k, i | 0 <= k < |items| && 0 <= i < |items[k]| ensures items[k][i] != ',' {
      assert items[k] in Pieces(parts);
      var j :| 0 <= j < |parts| && items[k] == Strip(parts[j]);
      StripIsInfix(parts[j], i);
    }
  }

  /** Strip keeps a contiguous stretch of its argument. */
  lemma StripIsInfix(s: string, i: nat)
    requires i < |Strip(s)|
    ensures exists j :: 0 <= j < |s| && Strip(s)[i] == s[j]
  {
    var u := TrimStart(s);
    var t := TrimEnd(u);
    assert t[i] == u[i];
    assert u[i] == s[|s| - |u| + i];
  }

  function PyStrs(items: seq<string>): (r: seq<PyValue>)
    ensures |r| == |items| && forall k :: 0 <= k < |r| ==> r[k] == PStr(items[k])
  {
    seq(|items|, k requires 0 <= k < |items| => PStr(items[k]))
  }

  /** The source items before normalisation: the fallback is used only when there are none. */
  function SourceItems(raw: PyValue, fallback: PyValue): Result<seq<PyValue>, PyError>
  {
    var listed := if raw.PStr? then Ok(PyStrs(CommaItems(raw.s)))
                  else if Truthy(raw) then Iterate(raw)
                  else Ok([]);
    match listed
    case Err(e) => Err(e)
    case Ok(items) => Ok(if |items| == 0 && Truthy(fallback) then [fallback] else items)
  }

  /** One source after normalisation; `None` for a value that is neither an int nor a string. */
  function NormSource(v: PyValue): Result<Option<ChatRef>, PyError>
  {
    if IsInt(v) then Ok(Some(Id(IntValue(v))))
    else if v.PStr? then
      match NormalizeChat(v.s)
      case Ok(c) => Ok(Some(c))
      case Err(e) => Err(e)
    else Ok(None)
  }

  /** The normalised set of a list of sources, or the first error met. */
  function SourceSet(items: seq<PyValue>): Result<set<ChatRef>, PyError>
  {
    GatherSet(seq(|items|, k requires 0 <= k < |items| => NormSource(items[k])))
  }

  /**
   * The set fails exactly when some item fails to normalise; otherwise it
   * holds exactly the items that normalise to a chat.
   */
  lemma SourceSetSpec(items: seq<PyValue>)
    ensures SourceSet(items).Err? <==> exists k :: 0 <= k < |items| && NormSource(items[k]).Err?
    ensures SourceSet(items).Ok? ==>
              forall c :: c in SourceSet(items).value <==> exists k :: 0 <= k < |items| && NormSource(items[k]) == Ok(Some(c))
  {
    var parsed := seq(|items|, k requires 0 <= k < |items| => NormSource(items[k]));
    GatherSetSpec(parsed);
    assert forall k :: 0 <= k < |items| ==> parsed[k] == NormSource(items[k]);
  }

  /** `normalize_sources`: the items, then `norm.add` for each one that normalises. */
  method NormalizeSources(raw: PyValue, fallback: PyValue) returns (r: Result<set<ChatRef>, PyError>)
    ensures SourceItems(raw, fallback).Err? ==> r == Err(SourceItems(raw, fallback).error)
    ensures SourceItems(raw, fallback).Ok? ==> r == SourceSet(SourceItems(raw, fallback).value)
  {
    var listed := SourceItems(raw, fallback);
    if listed.Err? {
      return Err(listed.error);
    }
    var sources := listed.value;
    ghost var parsed := seq(|sources|, k requires 0 <= k < |sources| => NormSource(sources[k]));
    var norm: set<ChatRef> := {};
    var i := 0;
    while i < |sources|
      invariant 0 <= i <= |sources|
      invariant GatherSet(parsed[..i]) == Ok(norm)
    {
      var s := sources[i];
      GatherSetSnoc(parsed, i);
      if IsInt(s) {
        norm := norm + {Id(IntValue(s))};
      } else if s.PStr? {
        var c := NormalizeChat(s.s);
        if c.Err? {
          GatherSetErrSticks(parsed, i + 1);
          return Err(c.error);
        }
        norm := norm + {c.value};
      }
      i := i + 1;
    }
    assert parsed[..i] == parsed;
    r := Ok(norm);
  }

  /** The fallback source is used only when the list yields no item at all. */
  lemma FallbackOnlyWhenEmpty(raw: PyValue, fallback: PyValue)
    requires raw.PStr?
    ensures var items := CommaItems(raw.s);
            SourceItems(raw, fallback) == Ok(if |items| == 0 && Truthy(fallback) then [fallback] else PyStrs(items))
  {
  }

  // ---------------------------------------------------------------------
  // normalize_topic_map
  // ---------------------------------------------------------------------

  /** The chat key of a topic map entry or of the fallback chat. */
  function ChatKeyOf(k: PyValue, repr: PyValue -> string): Result<ChatRef, PyError>
  {
    if IsInt(k) then Ok(Id(IntValue(k)))
    else if k.PStr? && IsIntLike(k.s) then NormalizeChat(k.s)
    else Ok(Handle(Lower(LStrip(Str(k, repr), '@'))))
  }

  /** `set(int(t) for t in ts if str(t).isdigit())`, built item by item. */
  function DigitIds(ts: seq<PyValue>, repr: PyValue -> string): Result<set<int>, PyError>
  {
    if |ts| == 0 then Ok({})
    else
      match DigitIds(ts[..|ts| - 1], repr)
      case Err(e) => Err(e)
      case Ok(acc) =>
        var t := ts[|ts| - 1];
        if IsDigits(Str(t, repr)) then
          match ToInt(t)
          case Err(e) => Err(e)
          case Ok(n) => Ok(acc + {n})
        else Ok(acc)
  }

  /** The topic ids of one whitelist value. */
  function TopicIds(v: PyValue, repr: PyValue -> string): Result<set<int>, PyError>
  {
    match Iterate(v)
    case Err(e) => Err(e)
    case Ok(ts) => DigitIds(ts, repr)
  }

  /** One whitelist entry read: its chat key first, then its topic ids; each may raise. */
  datatype TopicItem = TopicItem(key: Result<ChatRef, PyError>, tops: Result<set<int>, PyError>)

  function ReadTopicEntry(entry: (PyValue, PyValue), repr: PyValue -> string): TopicItem
  {
    TopicItem(ChatKeyOf(entry.0, repr), TopicIds(entry.1, repr))
  }

  /** Every entry read, in the order of the dict. */
  function TopicItems(entries: seq<(PyValue, PyValue)>, repr: PyValue -> string): (r: seq<TopicItem>)
    ensures |r| == |entries| && forall j :: 0 <= j < |r| ==> r[j] == ReadTopicEntry(entries[j], repr)
  {
    seq(|entries|, j requires 0 <= j < |entries| => ReadTopicEntry(entries[j], repr))
  }

  /**
   * Storing the read entries in order: a chat without topics is skipped,
   * a later entry for the same chat overwrites, the first exception ends it.
   */
  function GatherTopics(items: seq<TopicItem>): Result<map<ChatRef, set<int>>, PyError>
  {
    if |items| == 0 then Ok(map[])
    else
      var acc :- GatherTopics(items[..|items| - 1]);
      var key :- items[|items| - 1].key;
      var tops :- items[|items| - 1].tops;
      Ok(if |tops| > 0 then acc[key := tops] else acc)
  }

  /** The map the dict loop of `normalize_topic_map` builds. */
  function TopicMapOf(entries: seq<(PyValue, PyValue)>, repr: PyValue -> string): Result<map<ChatRef, set<int>>, PyError>
  {
    GatherTopics(TopicItems(entries, repr))
  }

  lemma GatherTopicsSnoc(items: seq<TopicItem>, n: nat)
    requires n < |items|
    ensures GatherTopics(items[..n + 1]) ==
              match GatherTopics(items[..n])
              case Err(e) => Err(e)
              case Ok(acc) =>
                match items[n].key
                case Err(e) => Err(e)
                case Ok(key) =>
                  match items[n].tops
                  case Err(e) => Err(e)
                  case Ok(tops) => Ok(if |tops| > 0 then acc[key := tops] else acc)
  {
    assert items[..n + 1][..n] == items[..n];
  }

  lemma {:induction false} GatherTopicsErrSticks(items: seq<TopicItem>, n: nat)
    requires n <= |items| && GatherTopics(items[..n]).Err?
    ensures GatherTopics(items) == GatherTopics(items[..n])
    decreases |items| - n
  {
    if n < |items| {
      GatherTopicsSnoc(items, n);
      GatherTopicsErrSticks(items, n + 1);
    } else {
      assert items[..n] == items;
    }
  }

  /** An entry read without an exception is stored, unless it has no topic. */
  lemma GatherTopicsStep(items: seq<TopicItem>, n: nat, acc: map<ChatRef, set<int>>)
    requires n < |items| && GatherTopics(items[..n]) == Ok(acc)
    requires items[n].key.Ok? && items[n].tops.Ok?
    ensures var key, tops := items[n].key.value, items[n].tops.value;
            GatherTopics(items[..n + 1]) == Ok(if |tops| > 0 then acc[key := tops] else acc)
  {
    GatherTopicsSnoc(items, n);
  }

  /** The first entry that raises, key first, ends the loop with its exception. */
  lemma GatherTopicsStops(items: seq<TopicItem>, n: nat, acc: map<ChatRef, set<int>>)
    requires n < |items| && GatherTopics(items[..n]) == Ok(acc)
    requires items[n].key.Err? || items[n].tops.Err?
    ensures GatherTopics(items) == Err(if items[n].key.Err? then items[n].key.error else items[n].tops.error)
  {
    GatherTopicsSnoc(items, n);
    GatherTopicsErrSticks(items, n + 1);
  }

  /** What `normalize_topic_map` returns without its dict loop. */
  function FallbackTopicMap(fallbackChat: PyValue, fallbackTopic: PyValue, repr: PyValue -> string): Result<map<ChatRef, set<int>>, PyError>
  {
    if Truthy(fallbackChat) && Truthy(fallbackTopic) then
      match ChatKeyOf(fallbackChat, repr)
      case Err(e) => Err(e)
      case Ok(key) =>
        match ToInt(fallbackTopic)
        case Err(e) => Err(e)
        case Ok(t) => Ok(map[key := {t}])
    else Ok(map[])
  }

  /** The dict loop of `normalize_topic_map`: later entries for the same chat overwrite earlier ones. */
  method NormalizeTopicEntries(entries: seq<(PyValue, PyValue)>, repr: PyValue -> string)
    returns (r: Result<map<ChatRef, set<int>>, PyError>)
    ensures r == TopicMapOf(entries, repr)
  {
    ghost var items := TopicItems(entries, repr);
    var norm: map<ChatRef, set<int>> := map[];
    var i := 0;
    while i < |entries|
      invariant 0 <= i <= |entries|
      invariant GatherTopics(items[..i]) == Ok(norm)
    {
      var k, v := entries[i].0, entries[i].1;
      var key := ChatKeyOf(k, repr);
      if key.Err? {
        GatherTopicsStops(items, i, norm);
        return Err(key.error);
      }
      var tops := TopicIds(v, repr);
      if tops.Err? {
        GatherTopicsStops(items, i, norm);
        return Err(tops.error);
      }
      GatherTopicsStep(items, i, norm);
      if |tops.value| > 0 {
        norm := norm[key.value := tops.value];
      }
      i := i + 1;
    }
    assert items[..i] == items;
    r := Ok(norm);
  }

  /** `normalize_topic_map`: a dict is normalised entry by entry; otherwise the fallback pair. */
  method NormalizeTopicMap(raw: PyValue, fallbackChat: PyValue, fallbackTopic: PyValue, repr: PyValue -> string)
    returns (r: Result<map<ChatRef, set<int>>, PyError>)
    ensures raw.PDict? ==> r == TopicMapOf(raw.entries, repr)
    ensures !raw.PDict? ==> r == FallbackTopicMap(fallbackChat, fallbackTopic, repr)
  {
    if raw.PDict? {
      r := NormalizeTopicEntries(raw.entries, repr);
    } else {
      r := FallbackTopicMap(fallbackChat, fallbackTopic, repr);
    }
  }

  /** `repr` of a float, list or dict is never a plain digit string. */
  ghost predicate ReprNotDigits(repr: PyValue -> string)
  {
    forall v: PyValue :: !IsDigits(repr(v))
  }

  /** Only digit strings and non-negative ints are kept as topic ids, so every id is non-negative. */
  lemma {:induction false} DigitIdsNonNegative(ts: seq<PyValue>, repr: PyValue -> string)
    requires ReprNotDigits(repr)
    requires DigitIds(ts, repr).Ok?
    ensures forall n :: n in DigitIds(ts, repr).value ==> n >= 0
  {
    if |ts| > 0 {
      var init := ts[..|ts| - 1];
      DigitIdsNonNegative(init, repr);
      var t := ts[|ts| - 1];
      var acc := DigitIds(init, repr).value;
      if t.PFloat? || t.PList? || t.PDict? {
        assert !IsDigits(Str(t, repr));
      }
      if IsDigits(Str(t, repr)) {
        var n := ToInt(t).value;
        assert DigitIds(ts, repr).value == acc + {n};
        assert n >= 0 by {
          match t
          case PInt(i) => NegativeIntNotDigits(i);
          case PStr(s) => PyIntOfIsDigits(s);
          case _ => {}
        }
      } else {
        assert DigitIds(ts, repr).value == acc;
      }
    }
  }

  /** Every non-negative int item is kept as a topic id. */
  lemma {:induction false} DigitIdsKeepInts(ts: seq<PyValue>, repr: PyValue -> string)
    requires DigitIds(ts, repr).Ok?
    ensures forall i :: 0 <= i < |ts| && ts[i].PInt? && ts[i].i >= 0 ==> ts[i].i in DigitIds(ts, repr).value
  {
    if |ts| > 0 {
      var init := ts[..|ts| - 1];
      DigitIdsKeepInts(init, repr);
      var t := ts[|ts| - 1];
      forall i | 0 <= i < |ts| && ts[i].PInt? && ts[i].i >= 0 ensures ts[i].i in DigitIds(ts, repr).value {
        if i < |init| {
          assert init[i] == ts[i];
        } else {
          assert ts[i] == t && Str(t, repr) == IntToString(t.i);
          NonNegativeIntIsDigits(t.i);
        }
      }
    }
  }

  lemma NonNegativeIntIsDigits(i: int)
    requires i >= 0
    ensures IsDigits(IntToString(i))
  {
  }

  lemma NegativeIntNotDigits(i: int)
    ensures i < 0 ==> !IsDigits(IntToString(i))
  {
    if i < 0 {
      assert IntToString(i)[0] == '-';
    }
  }

  /** Storing only non-empty sets of non-negative ids keeps every stored set so. */
  lemma {:induction false} GatherTopicsWellFormed(items: seq<TopicItem>)
    requires forall j :: 0 <= j < |items| && items[j].tops.Ok? ==> forall t :: t in items[j].tops.value ==> t >= 0
    requires GatherTopics(items).Ok?
    ensures forall c :: c in GatherTopics(items).value ==>
              |GatherTopics(items).value[c]| > 0 && forall t :: t in GatherTopics(items).value[c] ==> t >= 0
  {
    if |items| > 0 {
      var n := |items| - 1;
      GatherTopicsSnoc(items, n);
      assert items[..n + 1] == items;
      assert forall j :: 0 <= j < n ==> items[..n][j] == items[j];
      GatherTopicsWellFormed(items[..n]);
    }
  }

  /** Every kept chat has a non-empty set of non-negative topic ids. */
  lemma TopicMapWellFormed(entries: seq<(PyValue, PyValue)>, repr: PyValue -> string)
    requires ReprNotDigits(repr)
    requires TopicMapOf(entries, repr).Ok?
    ensures forall c :: c in TopicMapOf(entries, repr).value ==>
              |TopicMapOf(entries, repr).value[c]| > 0 && forall t :: t in TopicMapOf(entries, repr).value[c] ==> t >= 0
  {
    var items := TopicItems(entries, repr);
    forall j | 0 <= j < |items| && items[j].tops.Ok?
      ensures forall t :: t in items[j].tops.value ==> t >= 0
    {
      var v := entries[j].1;
      assert items[j].tops == TopicIds(v, repr);
      DigitIdsNonNegative(Iterate(v).value, repr);
    }
    GatherTopicsWellFormed(items);
  }

  /** A dict input ignores the fallbacks, even when it is empty. */
  lemma EmptyDictIgnoresFallback(fallbackChat: PyValue, fallbackTopic: PyValue, repr: PyValue -> string)
    ensures TopicMapOf([], repr) == Ok(map[])
    ensures Truthy(fallbackChat) && Truthy(fallbackTopic) && ChatKeyOf(fallbackChat, repr).Ok? && ToInt(fallbackTopic).Ok? ==>
              FallbackTopicMap(fallbackChat, fallbackTopic, repr) == Ok(map[ChatKeyOf(fallbackChat, repr).value := {ToInt(fallbackTopic).value}])
  {
  }
}

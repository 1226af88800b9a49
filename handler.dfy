/**
 * The message handler `on_signal_message` (src/main.py): the second-stage
 * topic check against `TOPIC_MAP`, the `NOTIFY_ONLY` cascade, and the
 * messages it sends.  The Telegram client is abstracted as the sequence of
 * outbound actions; the Gemini note, `str()` of a signal or an order and
 * `round` are given from outside.
 */
module Handler {
  import opened Wrappers
  import opened Text
  import opened PyValues
  import opened ChatKeys
  import opened Config
  import opened Models
  import opened Validator
  import opened Planner
  import opened SignalParser
  import opened Router

  /** The `config` values the handler reads. */
  datatype Settings = Settings(
    topicMap: PyValue,
    notifyOnly: set<RouteKey>,
    targetChat: ChatRef,
    tpProfile: string,
    thresholdPct: real,
    kwScalp: string,
    kwSwing: string,
    riskPct: real,
    balanceUsdt: real,
    pricePrecision: int,
    qtyPrecision: int,
    symbolSuffix: string)

  /**
   * What code outside the model contributes: the answer of
   * `gemini_validate` (`None` when it is not configured), `str()` of a
   * signal and of an order, and `round`.
   */
  datatype Foreign = Foreign(
    note: Option<string>,
    signalText: TradeSignal -> string,
    orderText: Order -> string,
    rnd: (real, int) -> real)

  /** One call on the Telegram client. */
  datatype Action =
    | Send(to: ChatRef, text: string)        // `send_message(target, text)`
    | Forward(to: ChatRef, fromPeer: int)    // `forward_messages(target, message, from_peer)`
  {
    function Target(): ChatRef
    {
      match this
      case Send(to, _) => to
      case Forward(to, _) => to
    }
  }

  const NotParsedNotice := "\U{26A0}\U{FE0F} Sinal detectado, mas n\U{E3}o consegui interpretar os campos (formato n\U{E3}o suportado)."
  const ValidationOk := "\U{2705} **Valida\U{E7}\U{E3}o local OK.**"
  const IssuesHeader := "\U{26A0}\U{FE0F} **Valida\U{E7}\U{E3}o local encontrou problemas:**\n- "
  const GeminiPrefix := "\U{1F916} **Gemini:** "
  const ProfilePrefix := "\U{1F4CC} **Profile escolhido:** "
  const ErrorPrefix := "\U{26A0}\U{FE0F} Erro ao processar mensagem: "
  const SignalPrefix := "\U{1F4CA} **Sinal parseado:**\n`"
  const SignalSuffix := "`"
  const PlanPrefix := "\U{1F9FE} **Plano de ordens (mock):**\n```\n"
  const PlanSuffix := "\n```"

  // ---------------------------------------------------------------------
  // _topic_allowed
  // ---------------------------------------------------------------------

  /**
   * `set(int(x) for x in allowed_list)`, or the empty set when iterating or
   * any conversion raises.
   */
  function AllowedInts(v: PyValue): (s: set<int>)
    ensures forall x :: x in s ==> Iterate(v).Ok? && exists k :: 0 <= k < |Iterate(v).value| && ToInt(Iterate(v).value[k]) == Ok(x)
  {
    match Iterate(v)
    case Err(_) => {}
    case Ok(xs) =>
      if forall k :: 0 <= k < |xs| ==> ToInt(xs[k]).Ok? then
        set k | 0 <= k < |xs| :: ToInt(xs[k]).value
      else {}
  }

  /**
   * The `for key in key_candidates:` loop: the first candidate present in
   * the map decides, unless subscripting it raises; no candidate, no topic.
   * A `key in tm` that raises ends the handler.
   */
  function AllowedUnder(tm: PyValue, keys: seq<PyValue>, topic: int): Result<bool, PyError>
    requires forall k :: 0 <= k < |keys| ==> IsScalar(keys[k])
  {
    if |keys| == 0 then Ok(false)
    else
      var present :- In(keys[0], tm);
      if !present then AllowedUnder(tm, keys[1..], topic)
      else match Subscript(tm, keys[0])
        case Err(_) => AllowedUnder(tm, keys[1..], topic)
        case Ok(list) => Ok(topic in AllowedInts(list))
  }

  /** `_topic_allowed(chat_id, topic_id)`; an exception from `in` is the handler's. */
  function TopicAllowed(tm: PyValue, chatId: int, topicId: Option<int>): Result<bool, PyError>
  {
    if !Truthy(tm) || topicId.None? then Ok(false)
    else AllowedUnder(tm, [PInt(chatId), PStr(IntToString(chatId))], topicId.value)
  }

  // ---------------------------------------------------------------------
  // NOTIFY_ONLY
  // ---------------------------------------------------------------------

  /** The keys the notify-only check tries, in order: (chat, topic), (chat, None), (user, topic), (user, None). */
  function NotifyCandidates(chatId: int, topicId: Option<int>, user: Option<string>): (c: seq<RouteKey>)
    ensures |c| == if HasUser(user) then 4 else 2
  {
    [RouteKey(Id(chatId), topicId), RouteKey(Id(chatId), None)]
    + if HasUser(user) then [RouteKey(Handle(user.value), topicId), RouteKey(Handle(user.value), None)] else []
  }

  /** The if/elif chain that sets `notify_only`. */
  predicate NotifyOnly(notify: set<RouteKey>, chatId: int, topicId: Option<int>, user: Option<string>)
  {
    if RouteKey(Id(chatId), topicId) in notify then true
    else if RouteKey(Id(chatId), None) in notify then true
    else if HasUser(user) && RouteKey(Handle(user.value), topicId) in notify then true
    else HasUser(user) && RouteKey(Handle(user.value), None) in notify
  }

  // ---------------------------------------------------------------------
  // The messages
  // ---------------------------------------------------------------------

  /** The notice sent instead of the forward. */
  function NotifyText(ev: Event): string
  {
    var topicStr := if ev.topicTitle.Some? && |ev.topicTitle.value| > 0 then " | t\U{F3}pico: " + ev.topicTitle.value else "";
    "\U{1F514} Nova mensagem detectada em " + ev.chatTitle + topicStr + "."
  }

  /** The message of the final `except`. */
  function ErrorText(e: PyError): string
  {
    ErrorPrefix + e.Message()
  }

  /** The first action: the notice for a notify-only chat, otherwise the forward. */
  function FirstAction(ev: Event, st: Settings): Action
  {
    if NotifyOnly(st.notifyOnly, ev.chatId, ev.topicId, ev.chatUsername) then Send(ev.target, NotifyText(ev))
    else Forward(ev.target, ev.chatId)
  }

  /** `parse_signal`, and `parse_signal_flexible` when it raises. */
  function ParseEither(text: string): Result<TradeSignal, PyError>
  {
    match ParseSignal(text)
    case Ok(s) => Ok(s)
    case Err(_) => ParseFlexible(text)
  }

  /** The `parts` list of the report, in the order it is built. */
  function ReportParts(issues: seq<string>, note: Option<string>, profile: string, signalStr: string, planTxt: string): seq<string>
  {
    [if |issues| > 0 then IssuesHeader + Join(issues, "\n- ") else ValidationOk]
    + (if note.Some? && |note.value| > 0 then [GeminiPrefix + note.value] else [])
    + [ProfilePrefix + profile,
       SignalPrefix + signalStr + SignalSuffix,
       PlanPrefix + planTxt + PlanSuffix]
  }

  /** `"\n".join(str(o) for o in orders)`. */
  function PlanText(orders: seq<Order>, orderText: Order -> string): string
  {
    Join(seq(|orders|, i requires 0 <= i < |orders| => orderText(orders[i])), "\n")
  }

  /** The plan settings the handler builds: the allocation, the configured risk and balance, post-only. */
  function HandlerPlanConfig(alloc: seq<real>, st: Settings): PlanConfig
  {
    PlanConfig(alloc, Some(st.riskPct), Some(st.balanceUsdt), st.pricePrecision, st.qtyPrecision, true)
  }

  /** Steps 5 to 9 for a parsed signal: the report text, or the exception that ends the handler. */
  function Report(text: string, signal: TradeSignal, st: Settings, fx: Foreign): Result<string, PyError>
  {
    var profile := ChooseTpProfile(signal, st.tpProfile, st.thresholdPct, st.kwScalp, st.kwSwing, Some(text));
    var alloc :- AllocForSignal(signal, profile);
    var orders :- OrderPlan(signal, HandlerPlanConfig(alloc, st), st.symbolSuffix, fx.rnd);
    Ok(Join(ReportParts(Issues(signal), fx.note, profile, fx.signalText(signal), PlanText(orders, fx.orderText)), "\n\n"))
  }

  /** Everything `on_signal_message(text, event)` sends, in order. */
  function SignalMessageActions(text: string, ev: Event, st: Settings, fx: Foreign): seq<Action>
  {
    if !IsPotentialSignal(text) then []
    else match TopicAllowed(st.topicMap, ev.chatId, ev.topicId)
      case Err(e) => [Send(ev.target, ErrorText(e))]
      case Ok(allowed) =>
        if !allowed then [] else Reply(ev.target, FirstAction(ev, st), ParsedReport(text, st, fx))
  }

  /** The report for the parsed signal, or `None` when neither parser accepts the text. */
  function ParsedReport(text: string, st: Settings, fx: Foreign): Option<Result<string, PyError>>
  {
    ReportFor(text, ParseEither(text), st, fx)
  }

  /** The report for a parse result, `None` for a failed parse. */
  function ReportFor(text: string, parsed: Result<TradeSignal, PyError>, st: Settings, fx: Foreign): Option<Result<string, PyError>>
  {
    match parsed
    case Err(_) => None
    case Ok(signal) => Some(Report(text, signal, st, fx))
  }

  /** The forward or notice, then the parse notice, the report, or the error the report raised. */
  function Reply(target: ChatRef, first: Action, report: Option<Result<string, PyError>>): seq<Action>
  {
    match report
    case None => [first, Send(target, NotParsedNotice)]
    case Some(Err(e)) => [first, Send(target, ErrorText(e))]
    case Some(Ok(s)) => [first, Send(target, s)]
  }

  /** `on_signal_message`: the checks, the forward or notice, then the parsed report built part by part. */
  method OnSignalMessage(text: string, ev: Event, st: Settings, fx: Foreign) returns (sent: seq<Action>)
    ensures sent == SignalMessageActions(text, ev, st, fx)
  {
    SignalActionsCases(text, ev, st, fx);
    sent := [];
    if !IsPotentialSignal(text) {
      return;
    }
    var allowed := TopicAllowed(st.topicMap, ev.chatId, ev.topicId);
    if allowed.Err? {
      sent := sent + [Send(ev.target, ErrorText(allowed.error))];
      return;
    }
    if !allowed.value {
      return;
    }
    var notifyOnly := NotifyOnly(st.notifyOnly, ev.chatId, ev.topicId, ev.chatUsername);
    var first := if notifyOnly then Send(ev.target, NotifyText(ev)) else Forward(ev.target, ev.chatId);
    assert first == FirstAction(ev, st);
    sent := ReplyAfter(text, ev.target, first, st, fx);
  }

  /** After the forward or notice: parse, then send the notice, the report or the error it raised. */
  method ReplyAfter(text: string, target: ChatRef, first: Action, st: Settings, fx: Foreign) returns (sent: seq<Action>)
    ensures sent == Reply(target, first, ParsedReport(text, st, fx))
  {
    var parsed := ParseBoth(text);
    sent := ReportReply(text, parsed, target, first, st, fx);
  }

  /** `parse_signal(text)`, falling back to `parse_signal_flexible(text)` when it raises. */
  method ParseBoth(text: string) returns (parsed: Result<TradeSignal, PyError>)
    ensures parsed == ParseEither(text)
  {
    parsed := ParseSignal(text);
    if parsed.Err? {
      parsed := ParseSignalFlexible(text);
    }
  }

  /** The second message for a parse result. */
  method ReportReply(text: string, parsed: Result<TradeSignal, PyError>, target: ChatRef, first: Action, st: Settings, fx: Foreign)
    returns (sent: seq<Action>)
    ensures sent == Reply(target, first, ReportFor(text, parsed, st, fx))
  {
    if parsed.Err? {
      sent := [first, Send(target, NotParsedNotice)];
      return;
    }
    var report := ReportMessage(text, parsed.value, st, fx);
    var last := if report.Err? then Send(target, ErrorText(report.error)) else Send(target, report.value);
    sent := [first, last];
  }

  /** The outcomes of `on_signal_message` by the checks it makes before parsing. */
  lemma SignalActionsCases(text: string, ev: Event, st: Settings, fx: Foreign)
    ensures !IsPotentialSignal(text) ==> SignalMessageActions(text, ev, st, fx) == []
    ensures var r := TopicAllowed(st.topicMap, ev.chatId, ev.topicId);
            IsPotentialSignal(text) ==>
              SignalMessageActions(text, ev, st, fx) ==
                if r.Err? then [Send(ev.target, ErrorText(r.error))]
                else if !r.value then []
                else Reply(ev.target, FirstAction(ev, st), ParsedReport(text, st, fx))
  {
  }

  /** Steps 5 to 10: validation, profile, allocation, plan, and the `parts` list joined. */
  method ReportMessage(text: string, signal: TradeSignal, st: Settings, fx: Foreign) returns (r: Result<string, PyError>)
    ensures r == Report(text, signal, st, fx)
  {
    var issues := LocalValidate(signal);
    var profile := ChooseTpProfile(signal, st.tpProfile, st.thresholdPct, st.kwScalp, st.kwSwing, Some(text));
    var alloc := AllocForSignal(signal, profile);
    if alloc.Err? {
      return Err(alloc.error);
    }
    var note := fx.note;
    var cfg := PlanConfig(alloc.value, Some(st.riskPct), Some(st.balanceUsdt), st.pricePrecision, st.qtyPrecision, true);
    var orders := BuildOrderPlan(signal, cfg, st.symbolSuffix, fx.rnd);
    if orders.Err? {
      return Err(orders.error);
    }
    var parts := BuildParts(issues, note, profile, fx.signalText(signal), PlanText(orders.value, fx.orderText));
    r := Ok(Join(parts, "\n\n"));
  }

  /** The `parts.append(...)` steps of the report. */
  method BuildParts(issues: seq<string>, note: Option<string>, profile: string, signalStr: string, planTxt: string)
    returns (parts: seq<string>)
    ensures parts == ReportParts(issues, note, profile, signalStr, planTxt)
  {
    parts := [];
    if |issues| > 0 {
      parts := parts + [IssuesHeader + Join(issues, "\n- ")];
    } else {
      parts := parts + [ValidationOk];
    }
    if note.Some? && |note.value| > 0 {
      parts := parts + [GeminiPrefix + note.value];
    }
    parts := parts + [ProfilePrefix + profile];
    parts := parts + [SignalPrefix + signalStr + SignalSuffix];
    parts := parts + [PlanPrefix + planTxt + PlanSuffix];
  }

  // ---------------------------------------------------------------------
  // Properties
  // ---------------------------------------------------------------------

  /** `_topic_allowed` is false without a truthy `TOPIC_MAP` or without a topic. */
  lemma NoMapNoTopic(tm: PyValue, chatId: int, topicId: Option<int>)
    requires !Truthy(tm) || topicId.None?
    ensures TopicAllowed(tm, chatId, topicId) == Ok(false)
  {
  }

  /** On a JSON object, a present candidate decides and an absent one passes to the next. */
  lemma AllowedUnderDict(entries: seq<(PyValue, PyValue)>, keys: seq<PyValue>, topic: int)
    requires |keys| > 0 && forall k :: 0 <= k < |keys| ==> IsScalar(keys[k])
    ensures AllowedUnder(PDict(entries), keys, topic) ==
              match Lookup(entries, keys[0])
              case Some(v) => Ok(topic in AllowedInts(v))
              case None => AllowedUnder(PDict(entries), keys[1..], topic)
  {
    assert In(keys[0], PDict(entries)) == Ok(Lookup(entries, keys[0]).Some?);
  }

  /**
   * On a JSON object, the entry under the chat id (as an int, then as its
   * text) decides: the topic is allowed iff it is among that entry's
   * int-convertible values; no entry, no topic.
   */
  lemma TopicAllowedOnDict(entries: seq<(PyValue, PyValue)>, chatId: int, topic: int)
    requires |entries| > 0
    ensures var r := TopicAllowed(PDict(entries), chatId, Some(topic));
            match Lookup(entries, PInt(chatId))
            case Some(v) => r == Ok(topic in AllowedInts(v))
            case None =>
              match Lookup(entries, PStr(IntToString(chatId)))
              case Some(v) => r == Ok(topic in AllowedInts(v))
              case None => r == Ok(false)
  {
    var keys := [PInt(chatId), PStr(IntToString(chatId))];
    AllowedUnderDict(entries, keys, topic);
    AllowedUnderDict(entries, keys[1..], topic);
    assert keys[1..][1..] == [];
  }

  /** JSON object keys are texts, so the chat id is found under its decimal text only. */
  lemma JsonKeysAreTexts(entries: seq<(PyValue, PyValue)>, chatId: int, topic: int)
    requires |entries| > 0 && forall k :: 0 <= k < |entries| ==> entries[k].0.PStr?
    ensures TopicAllowed(PDict(entries), chatId, Some(topic)) ==
              match Lookup(entries, PStr(IntToString(chatId)))
              case Some(v) => Ok(topic in AllowedInts(v))
              case None => Ok(false)
  {
    NumberMissesTextKeys(entries, PInt(chatId));
    TopicAllowedOnDict(entries, chatId, topic);
  }

  /** A whitelist of int ids allows exactly those ids. */
  lemma AllowedIntsOfInts(items: seq<PyValue>, topic: int)
    requires forall k :: 0 <= k < |items| ==> items[k].PInt?
    ensures topic in AllowedInts(PList(items)) <==> exists k :: 0 <= k < |items| && items[k] == PInt(topic)
  {
    assert Iterate(PList(items)) == Ok(items);
    assert forall k :: 0 <= k < |items| ==> ToInt(items[k]) == Ok(items[k].i);
    if exists k :: 0 <= k < |items| && items[k] == PInt(topic) {
      var k :| 0 <= k < |items| && items[k] == PInt(topic);
      assert ToInt(items[k]).value == topic;
    }
  }

  /** One value that `int()` refuses (`None`, a list, an object) empties the whitelist. */
  lemma AllowedIntsRefused(items: seq<PyValue>, k: nat)
    requires k < |items| && (items[k].PNone? || items[k].PList? || items[k].PDict?)
    ensures AllowedInts(PList(items)) == {}
  {
    assert Iterate(PList(items)) == Ok(items);
    assert !(forall j :: 0 <= j < |items| ==> ToInt(items[j]).Ok?) by {
      assert ToInt(items[k]).Err?;
    }
  }

  /**
   * A truthy `TOPIC_MAP` that is neither a list nor an object (a text, a
   * number, `true`) makes `chat_id in tm` raise: the handler ends with its
   * error message.
   */
  lemma ScalarMapRaises(tm: PyValue, chatId: int, topic: int)
    requires Truthy(tm) && !tm.PList? && !tm.PDict?
    ensures TopicAllowed(tm, chatId, Some(topic)).Err?
  {
  }

  /** `notify_only` holds exactly when one of its candidate keys is listed. */
  lemma NotifyOnlyIff(notify: set<RouteKey>, chatId: int, topicId: Option<int>, user: Option<string>)
    ensures var c := NotifyCandidates(chatId, topicId, user);
            NotifyOnly(notify, chatId, topicId, user) <==> exists i :: 0 <= i < |c| && c[i] in notify
  {
    var c := NotifyCandidates(chatId, topicId, user);
    if NotifyOnly(notify, chatId, topicId, user) {
      if RouteKey(Id(chatId), topicId) in notify {
        assert c[0] in notify;
      } else if RouteKey(Id(chatId), None) in notify {
        assert c[1] in notify;
      } else if RouteKey(Handle(user.value), topicId) in notify {
        assert c[2] in notify;
      } else {
        assert c[3] in notify;
      }
    }
  }

  /** A text that does not look like a trade sends nothing. */
  lemma NonSignalSendsNothing(text: string, ev: Event, st: Settings, fx: Foreign)
    requires !IsPotentialSignal(text)
    ensures SignalMessageActions(text, ev, st, fx) == []
  {
  }

  /** A disallowed topic sends nothing. */
  lemma DisallowedSendsNothing(text: string, ev: Event, st: Settings, fx: Foreign)
    requires TopicAllowed(st.topicMap, ev.chatId, ev.topicId) == Ok(false)
    ensures SignalMessageActions(text, ev, st, fx) == []
  {
  }

  /**
   * Without a topic whitelist nothing is forwarded or sent: the router lets
   * every message through, and `_topic_allowed` then refuses it.
   */
  lemma NoWhitelistNothingSent(text: string, ev: Event, st: Settings, fx: Foreign)
    requires !Truthy(st.topicMap)
    ensures SignalMessageActions(text, ev, st, fx) == []
  {
    NoMapNoTopic(st.topicMap, ev.chatId, ev.topicId);
  }

  /**
   * Every action goes to the routed destination, at most two are made, and
   * a failing `in` on `TOPIC_MAP` gives the single error message.
   */
  lemma ActionsShape(text: string, ev: Event, st: Settings, fx: Foreign)
    ensures var a := SignalMessageActions(text, ev, st, fx);
            |a| <= 2 && forall i :: 0 <= i < |a| ==> a[i].Target() == ev.target
    ensures var r := TopicAllowed(st.topicMap, ev.chatId, ev.topicId);
            IsPotentialSignal(text) && r.Err? ==> SignalMessageActions(text, ev, st, fx) == [Send(ev.target, ErrorText(r.error))]
  {
    var r := TopicAllowed(st.topicMap, ev.chatId, ev.topicId);
    if IsPotentialSignal(text) && r.Ok? && r.value {
      ReplyShape(ev.target, FirstAction(ev, st), ParsedReport(text, st, fx));
    }
  }

  /** A reply is two actions, both to the given destination when the first one is. */
  lemma ReplyShape(target: ChatRef, first: Action, report: Option<Result<string, PyError>>)
    requires first.Target() == target
    ensures var a := Reply(target, first, report);
            |a| == 2 && a[0] == first && a[1].Send? && forall i :: 0 <= i < |a| ==> a[i].Target() == target
  {
  }

  /**
   * For an allowed signal the first action is the notice when the chat is
   * notify-only and the forward otherwise, and a second message always
   * follows: the parse notice when the parse fails, else the report or the
   * error it raised.
   */
  lemma AllowedSignal(text: string, ev: Event, st: Settings, fx: Foreign)
    requires IsPotentialSignal(text) && TopicAllowed(st.topicMap, ev.chatId, ev.topicId) == Ok(true)
    ensures var a := SignalMessageActions(text, ev, st, fx);
            |a| == 2
            && (NotifyOnly(st.notifyOnly, ev.chatId, ev.topicId, ev.chatUsername) ==> a[0] == Send(ev.target, NotifyText(ev)))
            && (!NotifyOnly(st.notifyOnly, ev.chatId, ev.topicId, ev.chatUsername) ==> a[0] == Forward(ev.target, ev.chatId))
            && a[1].Send?
    ensures ParseFlexible(text).Err? ==> SignalMessageActions(text, ev, st, fx)[1] == Send(ev.target, NotParsedNotice)
    ensures ParseFlexible(text).Ok? ==>
              match Report(text, ParseFlexible(text).value, st, fx)
              case Ok(report) => SignalMessageActions(text, ev, st, fx)[1] == Send(ev.target, report)
              case Err(e) => SignalMessageActions(text, ev, st, fx)[1] == Send(ev.target, ErrorText(e))
  {
  }

  /**
   * After a successful parse the report can only fail in sizing: with a
   * non-zero risk and balance, when the stop equals the entry price.
   */
  lemma ReportFailsIff(text: string, st: Settings, fx: Foreign)
    requires ParseFlexible(text).Ok?
    ensures var s := ParseFlexible(text).value;
            Report(text, s, st, fx).Err? <==> st.riskPct != 0.0 && st.balanceUsdt != 0.0 && s.sl == s.entryPm
  {
    var s := ParseFlexible(text).value;
    ParsedSignalShape(text);
    var profile := ChooseTpProfile(s, st.tpProfile, st.thresholdPct, st.kwScalp, st.kwSwing, Some(text));
    var alloc := AllocForSignal(s, profile);
    PlanFailsIff(s, HandlerPlanConfig(alloc.value, st), st.symbolSuffix, fx.rnd);
  }

  /**
   * The report's parts: the validation verdict first, the Gemini note only
   * when non-empty, then the profile, the signal and the plan.
   */
  lemma ReportPartsOrder(issues: seq<string>, note: Option<string>, profile: string, signalStr: string, planTxt: string)
    ensures var p := ReportParts(issues, note, profile, signalStr, planTxt);
            var n := if note.Some? && |note.value| > 0 then 1 else 0;
            |p| == 4 + n
            && p[0] == (if |issues| > 0 then IssuesHeader + Join(issues, "\n- ") else ValidationOk)
            && (n == 1 ==> p[1] == GeminiPrefix + note.value)
            && p[1 + n] == ProfilePrefix + profile
            && p[2 + n] == SignalPrefix + signalStr + SignalSuffix
            && p[3 + n] == PlanPrefix + planTxt + PlanSuffix
  {
  }

  /**
   * The two stages together: a message the router delivers while
   * `TOPIC_MAP` is falsy makes the handler send nothing.
   */
  lemma RoutedWithoutWhitelist(sources: set<ChatRef>, targets: map<RouteKey, ChatRef>, fm: TopicMap.FastTopicMap,
                               inc: Incoming, st: Settings, fx: Foreign)
    requires !Truthy(st.topicMap)
    requires Route(sources, st.topicMap, targets, st.targetChat, fm, inc).Deliver?
    ensures var o := Route(sources, st.topicMap, targets, st.targetChat, fm, inc);
            SignalMessageActions(o.text, o.event, st, fx) == []
  {
    var o := Route(sources, st.topicMap, targets, st.targetChat, fm, inc);
    NoWhitelistNothingSent(o.text, o.event, st, fx);
  }
}

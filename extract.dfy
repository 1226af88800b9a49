/**
 * Finding the root-message id of a forum message (`extract_top_msg_id`),
 * in the reader's variant (src/telegram_reader.py) and in the resolver's
 * (src/utils/utils_topic.py).  Both try the reply header, then the
 * message's own attributes, then its `to_dict()` form.
 */
module Extract {
  import opened Wrappers
  import opened Text
  import opened PyValues

  /** `message.reply_to`: its two root-message attributes (`None` when absent). */
  datatype ReplyHeader = ReplyHeader(topMsgId: PyValue, replyToTopId: PyValue)

  /**
   * The parts of a message the extraction reads; `toDict` is what
   * `message.to_dict()` returns or raises.
   */
  datatype Message = Message(
    replyTo: Option<ReplyHeader>,
    topMsgId: PyValue,
    replyToTopId: PyValue,
    toDict: Result<PyValue, PyError>)

  /** Python `a or b`. */
  function PyOr(a: PyValue, b: PyValue): (r: PyValue)
    ensures Truthy(a) ==> r == a
    ensures !Truthy(a) ==> r == b
  {
    if Truthy(a) then a else b
  }

  /**
   * A value the extraction accepts: an `int` as it is, and, where strings
   * are accepted, a text passing `v.lstrip("-").isdigit()` through `int(v)`,
   * which raises for more than one leading `-` or a superscript digit.
   */
  function Accept(v: PyValue, strings: bool): Option<Result<int, PyError>>
  {
    if IsInt(v) then Some(Ok(IntValue(v)))
    else if strings && v.PStr? && IsIntLike(v.s) then Some(ToInt(v))
    else None
  }

  /** `d.get(key)` on a dict, `None` when absent. */
  function GetOrNone(d: PyValue, key: string): PyValue
    requires d.PDict?
  {
    match DictGet(d, PStr(key))
    case Some(v) => v
    case None => PNone
  }

  /**
   * The `to_dict()` fallback inside `try ... except Exception: pass`: any
   * exception (from `to_dict`, a `.get` on a non-dict or `int()`) gives `None`.
   */
  function FromDict(msg: Message): Option<int>
  {
    match msg.toDict
    case Err(_) => None
    case Ok(d0) =>
      var d := if Truthy(d0) then d0 else PDict([]);
      if !d.PDict? then None
      else
        var rt0 := match DictGet(d, PStr("reply_to")) case Some(x) => x case None => PDict([]);
        var rt := if Truthy(rt0) then rt0 else PDict([]);
        if !rt.PDict? then None
        else
          match Accept(PyOr(GetOrNone(rt, "top_msg_id"), GetOrNone(rt, "reply_to_top_id")), true)
          case Some(Ok(n)) => Some(n)
          case _ => None
  }

  /** The reply header's candidate: `r.top_msg_id or r.reply_to_top_id`. */
  function HeaderValue(msg: Message): PyValue
  {
    match msg.replyTo
    case Some(r) => PyOr(r.topMsgId, r.replyToTopId)
    case None => PNone
  }

  /**
   * The three unguarded candidates in the order they are tried; `strings`
   * says whether int-like texts are accepted there (the reader) or not
   * (the resolver).
   */
  function Direct(msg: Message, strings: bool): Option<Result<int, PyError>>
  {
    var h := Accept(HeaderValue(msg), strings);
    if h.Some? then h
    else
      var a := Accept(msg.topMsgId, strings);
      if a.Some? then a else Accept(msg.replyToTopId, strings)
  }

  /** The reader's `extract_top_msg_id`; an `int()` failure outside the `try` propagates. */
  function ReaderTopMsgId(msg: Option<Message>): Result<Option<int>, PyError>
  {
    if msg.None? then Ok(None)
    else
      match Direct(msg.value, true)
      case Some(Ok(n)) => Ok(Some(n))
      case Some(Err(e)) => Err(e)
      case None => Ok(FromDict(msg.value))
  }

  /** The resolver's `extract_top_msg_id`: ints only before the `to_dict()` fallback, so it never raises. */
  function UtilsTopMsgId(msg: Option<Message>): Option<int>
  {
    if msg.None? then None
    else
      match Direct(msg.value, false)
      case Some(Ok(n)) => Some(n)
      case _ => FromDict(msg.value)
  }

  // ---------------------------------------------------------------------
  // Properties
  // ---------------------------------------------------------------------

  /**
   * Accepting a value fails exactly for an int-like text that `int()` cannot
   * read: more than one leading `-`, or a superscript digit.
   */
  lemma AcceptFails(v: PyValue, strings: bool)
    ensures (Accept(v, strings).Some? && Accept(v, strings).value.Err?) <==>
              strings && v.PStr? && IsIntLike(v.s) && !IsIntText(v.s)
    ensures Accept(v, false).Some? ==> Accept(v, false).value == Ok(IntValue(v))
  {
    if strings && v.PStr? && IsIntLike(v.s) {
      PyIntOfIntLike(v.s);
    }
  }

  /** The text of an integer is accepted as that integer where texts are. */
  lemma AcceptIntText(i: int)
    ensures Accept(PStr(IntToString(i)), true) == Some(Ok(i))
    ensures Accept(PStr(IntToString(i)), false) == None
  {
    PyIntOfIntToString(i);
    IntToStringIsIntLike(i);
  }

  /**
   * The reader raises only when the candidate it settles on is a guarded
   * text that `int()` cannot read, like `--5` or `²`; the resolver's variant is total.
   */
  lemma ReaderRaisesOnlyOnBadIntText(msg: Message)
    ensures ReaderTopMsgId(Some(msg)).Err? ==>
              exists v :: v in [HeaderValue(msg), msg.topMsgId, msg.replyToTopId]
                          && v.PStr? && IsIntLike(v.s) && !IsIntText(v.s)
  {
    AcceptFails(HeaderValue(msg), true);
    AcceptFails(msg.topMsgId, true);
    AcceptFails(msg.replyToTopId, true);
  }

  /** No text among the three unguarded candidates: both variants give the same id. */
  lemma VariantsAgreeWithoutTexts(msg: Message)
    requires !HeaderValue(msg).PStr? && !msg.topMsgId.PStr? && !msg.replyToTopId.PStr?
    ensures ReaderTopMsgId(Some(msg)) == Ok(UtilsTopMsgId(Some(msg)))
  {
  }

  /**
   * The reply header wins: an int there is the answer whatever the other
   * sources hold, in both variants.
   */
  lemma HeaderFirst(msg: Message)
    requires IsInt(HeaderValue(msg))
    ensures ReaderTopMsgId(Some(msg)) == Ok(Some(IntValue(HeaderValue(msg))))
    ensures UtilsTopMsgId(Some(msg)) == Some(IntValue(HeaderValue(msg)))
  {
  }

  /**
   * A found id comes from one of the sources; with none of them holding an
   * int, an int-like text or a usable `to_dict()` entry, the result is `None`.
   */
  lemma UtilsSources(msg: Message)
    ensures UtilsTopMsgId(Some(msg)).Some? ==>
              (exists v :: v in [HeaderValue(msg), msg.topMsgId, msg.replyToTopId] && IsInt(v)
                           && UtilsTopMsgId(Some(msg)).value == IntValue(v))
              || FromDict(msg) == UtilsTopMsgId(Some(msg))
    ensures UtilsTopMsgId(None) == None
  {
    if Direct(msg, false).Some? {
      AcceptFails(HeaderValue(msg), false);
      AcceptFails(msg.topMsgId, false);
      AcceptFails(msg.replyToTopId, false);
    }
  }

  /** The reader takes an int-like text in the reply header, which the resolver passes over. */
  lemma ReaderTakesHeaderText(top: int, rest: Message)
    requires rest.replyTo == Some(ReplyHeader(PStr(IntToString(top)), PNone))
    requires !IsInt(rest.topMsgId) && !IsInt(rest.replyToTopId)
    ensures ReaderTopMsgId(Some(rest)) == Ok(Some(top))
    ensures UtilsTopMsgId(Some(rest)) == FromDict(rest)
  {
    AcceptIntText(top);
    assert HeaderValue(rest) == PStr(IntToString(top)) by {
      assert Truthy(PStr(IntToString(top)));
    }
  }
}

# Telegram-Forwarder core, modelled in Dafny

Telegram-Forwarder listens to Telegram source chats and forwards messages that
look like trading signals to a destination chat. A source chat may be a forum,
whose messages belong to topics. For each forwarded message it also sends a
report. The report contains:

- a deterministic validation of the parsed signal;
- the chosen take-profit profile;
- the parsed signal;
- a mock order plan.

This project models the decision logic of that program and proves properties
about it:

- **Configuration.** How `SOURCE_CHAT`, `TOPIC_MAP`/`TOPIC_ID`, `TARGET_CHAT`,
  `TARGET_MAP` and `NOTIFY_ONLY` are read from already-obtained strings.
  Modules `Config` and `ChatKeys`.
- **Chat-key normalisation.** `normalize_sources` and `normalize_topic_map`,
  in `ChatKeys`.
- **Root-message extraction.** Finding a message's root-message id, in both
  of its variants. Module `Extract`.
- **Topic cache.** The fast topic cache with its fail-closed permission set.
  Class `TopicMap.FastTopicMap`, built from an input sequence of listing pages.
- **Refresh-on-miss resolver.** Class `Resolver.TopicResolver`.
- **Router.** Source match, allow gate, the six-step destination cascade and
  the injected event attributes. Module `Router`.
- **Handler.** `_topic_allowed`, the notify-only cascade, and the sequence of
  Telegram calls `on_signal_message` makes. Module `Handler`.
- **Signal parser.** The admission filter and the tolerant parser, written as
  hand-made scanners for the parser's regular expressions. Modules
  `SignalParser` and `Scan`.
- **Validator.** The per-side validation. Module `Validator`.
- **Planner.** Allocation tables, profile choice, sizing and the order plan.
  Module `Planner`.

Supporting modules:

- `Text`: Python string operations.
- `PyValues`: dynamically typed Python/JSON values, with `int()`, `str()`,
  `in`, subscripting and truthiness.
- `Telegram`: chats, topics and listing pages.
- `Models`: the three dataclasses.
- `Wrappers`: `Option`, `Result` and Python exceptions.

Code that changes state step by step is written as Dafny methods with loops:

- the configuration loops;
- the normaliser loops;
- `local_validate`;
- `build_order_plan`;
- the parser's field cascade and `finditer` loops;
- the page loops.

The cache objects are classes whose methods update their fields. Each method is
proved equal to a specification function, and the properties are lemmas about
those functions.

A Python exception is an `Err(PyError)` result; where the source catches it,
the model takes the path the `except` takes. Covered:

- `int()` of a text like `--5` or `²`, which passes the guard `s.lstrip("-").isdigit()`;
- `1.0 / 0` in the allocation;
- `calc_qty` with the stop at the entry;
- `in` on a JSON value that is not a container.

Behaviour of the code worth knowing:

- **Allow-list scope.** A chat without an allow-list is not unrestricted. The
  router opens its gate only when `TOPIC_MAP` as a whole is falsy. A chat
  missing from a truthy `TOPIC_MAP` gets an empty allowed set, so nothing from
  it is delivered (`TopicMap.AllowedSetSpec`, `Router.GatedDeliveryIsAllowed`).
  With no `TOPIC_MAP` at all, `_topic_allowed` refuses every message, so the
  handler sends nothing (`Handler.NoWhitelistNothingSent`,
  `Handler.RoutedWithoutWhitelist`).
- **Handle case.** Handles are lower-cased only in routing keys and sources.
  `SOURCE_CHAT`, `TARGET_CHAT` and the `TARGET_MAP` destinations keep the
  username's case (`Config.SourceKeepsCase`, `Config.KeyLowercases`).
- **Integer-like text.** "Integer-like" means what `s.lstrip("-").isdigit()`
  accepts. That includes several leading `-`, and the superscripts ², ³ and ¹,
  which `str.isdigit()` counts as digits. `int()` raises for both, and the
  model carries that exception to wherever the source lets it go. Within the
  Latin-1 range the model covers, `\d` and `int()` read only the decimal
  digits 0-9.

## Model

| member | source | states |
|---|---|---|
| Text.Lower | src/parser_signal.py:16 | lower-casing works character by character and keeps the length |
| Text.UpperOfFolded | src/parser_signal.py:46-49 | a text that case-folds to an ASCII lower-case word upper-cases to that word in capitals, so a case-insensitive match upper-cases to the keyword |
| Text.UpperOfUpper | src/parser_signal.py:59-62 | `.upper()` leaves capitals and digits unchanged, so upper-casing a rule-2 group is the identity |
| Text.TrimStart | src/config.py:13 | `lstrip()` removes exactly the leading whitespace: the result is a suffix, everything dropped is whitespace, and the result does not start with whitespace |
| Text.TrimEnd | src/config.py:13 | `rstrip()` removes exactly the trailing whitespace: the result is a prefix, everything dropped is whitespace, and the result does not end with whitespace |
| Text.StripNoSpace | src/config.py:13 | a text with no whitespace at either end is its own `strip()` |
| Text.LeadingCount | src/config.py:15 | counts exactly the leading copies of a character, which is what `lstrip(c)` removes |
| Text.NatToString | src/telegram_reader.py:151 | `str(n)` is a digit string of value `n` with no leading zero |
| Text.PyIntOfIntToString | src/config.py:15-16 | `int(str(i)) == i` for every integer |
| Text.IntToStringIsIntLike | src/config.py:15 | the text of every integer passes the guard `lstrip("-").isdigit()`, with one `-` exactly for negatives, and is a text `int()` reads |
| Text.PyIntOfIntLike | src/config.py:15-16 | for a text that passes the guard, `int()` succeeds exactly when there is at most one leading `-` and every digit is decimal (not a superscript ², ³ or ¹, which `isdigit()` also admits), and then gives the signed digit value |
| Text.SuperscriptTwoIsDigit | src/helpers.py:126 | `"²"` passes `isdigit()` but is not a decimal digit |
| Text.PyIntOfIsDigits | src/helpers.py:126 | `int()` of a text that passes `isdigit()` is its decimal value when every digit is decimal, and raises when one is a superscript |
| Text.PyIntOfDoubleMinus | src/config.py:15-16 | a text with two leading `-` passes the guard but `int()` rejects it |
| Text.ContainsTransitive | src/parser_signal.py:18-20 | `in` is transitive, so a text containing a longer keyword contains the shorter one |
| Text.ContainsLower | src/helpers.py:20-24 | lower-casing keeps every occurrence of a substring |
| Text.Split | src/helpers.py:96 | `split` on one character always yields at least one piece |
| Text.SplitJoin | src/helpers.py:96 | joining the pieces of `split(c)` with `c` gives the text back, and no piece contains `c` |
| Text.IndexOf | src/config.py:69-70 | the position of the first occurrence: the character is there and nowhere before; `None` exactly when it is absent |
| PyValues.Trunc | src/telegram_reader.py:155-156 | `int()` of a float truncates toward zero |
| PyValues.ToInt | src/main.py:42 | `int(v)`: the value of an int or bool, success on a text exactly when the text is a base-10 integer, an exception for `None`, lists and dicts |
| PyValues.Str | src/config.py:64-66 | `str(v)` is the text itself for a text, and reads back with `int()` to the value for an int |
| PyValues.Iterate | src/main.py:42 | iteration succeeds exactly for lists, dicts and texts; a list yields its items, a dict one item per key |
| PyValues.Lookup | src/main.py:36-38 | finds a value exactly when some key compares equal to the key, and the value found belongs to such a key |
| PyValues.NumberMissesTextKeys | src/main.py:34-36 | a number never equals a text key, so looking up `chat_id` in a JSON object whose keys are texts finds nothing |
| PyValues.In | src/main.py:36 | `key in container`: membership for lists, key presence for dicts, substring for two texts, and an exception for anything else |
| PyValues.Subscript | src/main.py:38 | `container[key]`: a dict yields the value of a present key and raises for a missing one; a list yields the element at an in-range int index and raises for a key that is not an int |
| Models.Defaults | src/models.py:4-36 | `TradeSignal.notes` is `None`; `PlanConfig` has no risk or balance, precisions 2 and 4, and post-only; an `Order` is neither reduce-only nor post-only by default |
| ChatKeys.NormalizeChat | src/helpers.py:121-124 | an integer-like text becomes a chat id, and `int()` fails exactly for several leading `-` or a superscript digit; any other text becomes the lower-cased handle without leading `@` |
| ChatKeys.NormalizeChatOfId | src/helpers.py:121-122 | the text of a number normalises to that chat id |
| ChatKeys.NormalizeHandleStable | src/helpers.py:124 | a normalised handle normalises to itself |
| ChatKeys.PiecesShape | src/helpers.py:96 | every kept piece of the comma split is non-blank, stripped, and a stripped copy of one of the parts |
| ChatKeys.CommaItemsShape | src/helpers.py:96 | no item of a comma-separated list is blank, padded or contains a comma |
| ChatKeys.SourceSetSpec | src/helpers.py:103-109 | normalising the sources fails exactly when some item fails; otherwise the set holds exactly the chats the items normalise to, and items that are neither ints nor texts are skipped |
| ChatKeys.NormalizeSources | src/helpers.py:89-109 | the loop returns the error of the item list, or the normalised set of its items |
| ChatKeys.FallbackOnlyWhenEmpty | src/helpers.py:95-101 | the fallback source is used only when the comma split yields no item |
| ChatKeys.NormalizeTopicEntries | src/helpers.py:117-128 | the dict loop returns the map specified entry by entry: chats without topics are skipped, a later entry for the same chat overwrites, and the first exception ends the loop |
| ChatKeys.NormalizeTopicMap | src/helpers.py:112-135 | a dict is normalised entry by entry and its fallbacks are ignored; any other input gives the fallback pair |
| ChatKeys.DigitIdsNonNegative | src/helpers.py:126 | only non-negative ids are kept: a negative int fails `isdigit()`, and a passing text reads as a non-negative value or raises |
| ChatKeys.DigitIdsKeepInts | src/helpers.py:126 | every non-negative int item is kept |
| ChatKeys.NonNegativeIntIsDigits | src/helpers.py:126 | the text of a non-negative int is all digits |
| ChatKeys.NegativeIntNotDigits | src/helpers.py:126 | the text of a negative int is not all digits, so negative topic ids are dropped |
| ChatKeys.GatherTopicsWellFormed | src/helpers.py:126-128 | storing only non-empty sets of non-negative ids keeps every stored set so |
| ChatKeys.TopicMapWellFormed | src/helpers.py:117-128 | every chat in the normalised topic map has a non-empty set of non-negative topic ids |
| ChatKeys.EmptyDictIgnoresFallback | src/helpers.py:118-134 | an empty dict gives an empty map even when both fallbacks are usable, and a non-dict input gives the one-chat fallback map |
| Config.PlainChat | src/config.py:48-51 | an integer-like text becomes an id (`int()` fails exactly for several leading `-` or a superscript digit); any other text becomes the handle without `@`, case kept |
| Config.SuperscriptSourceRaises | src/config.py:13-20 | any `SOURCE_CHAT` that passes the `isdigit()` guard but holds a superscript digit (such as `"²"`) makes `int()` raise |
| Config.UnsetChats | src/config.py:13-51 | an unset `SOURCE_CHAT` is `None` and an unset `TARGET_CHAT` is the handle `me` |
| Config.PlainChatOfName | src/config.py:48-51 | a name starting with neither `-`, `@` nor an `isdigit` character is kept as it is |
| Config.UnsetMaps | src/config.py:27-114 | no setting: no topic map, an empty `TARGET_MAP`, an empty `NOTIFY_ONLY` |
| Config.SourceKeepsCase | src/config.py:13-18 | `SOURCE_CHAT=@Canal` gives the handle `Canal`, not lower-cased |
| Config.KeyLowercases | src/config.py:71 | a routing key `@Canal` gives the handle `canal` |
| Config.TopicMapWins | src/config.py:36-38 | `TOPIC_ID` is `None` whenever `TOPIC_MAP` is truthy |
| Config.TopicIdFromText | src/config.py:36-43 | without a truthy `TOPIC_MAP`, an integer-like text with at most one `-` is the topic id `int()` gives, an integer-like text with several leading `-` (such as `--5`) or with a superscript digit raises from `int()`, and a text that is not integer-like gives `None` |
| Config.InvalidTopicMapFallsBack | src/config.py:27-43 | text that is not JSON gives no topic map, so `TOPIC_ID` decides |
| Config.LoadTargetMap | src/config.py:58-81 | the `TARGET_MAP` block ends with the specified map: empty when unset, not a JSON object, or when an entry raises |
| Config.TargetMapOfEntries | src/config.py:60-63 | once the setting is a JSON object, the map is that object's loop result, or empty on an exception |
| Config.InsertTargets | src/config.py:63-79 | the insertion loop returns exactly the map, or the exception, that the entry-by-entry specification gives for the object's entries |
| Config.SplitAtFirstBar | src/config.py:69-76 | a key is split at its first `|`: the chat part is normalised, a failing `int()` on it raises, and a topic part `int()` rejects skips the entry |
| Config.WholeChatKey | src/config.py:77-79 | a key without `|` names the whole chat |
| Config.ChatTopicKeyRoundTrip | src/config.py:69-79 | `"<chat id>|<topic id>"` reads back as that pair, and `"<chat id>"` as the whole chat |
| Config.GatherTargetsSpec | src/config.py:63-79 | the loop raises exactly when some entry's value or key raises; otherwise a pair is stored exactly when some entry's key parses to it |
| Config.GatherTargetsLast | src/config.py:63-79 | a stored pair holds the normalised value of the last entry whose key parses to it, since later keys overwrite earlier ones |
| Config.TargetEntriesRaise | src/config.py:61-81 | the `TARGET_MAP` loop raises exactly when some entry's value or key raises |
| Config.TargetEntriesPairs | src/config.py:63-79 | for an object none of whose entries raises, a pair is in the map exactly when some entry's key parses to it |
| Config.TargetEntriesLast | src/config.py:63-79 | a pair in the map holds the normalised value of the last entry whose key parses to it |
| Config.WholeChatEntryStored | src/config.py:77-79 | an entry whose key has no `|` and reads as a chat is stored under `(chat, None)` |
| Config.TargetMapSpec | src/config.py:58-81 | the stored `TARGET_MAP` is empty unless the setting is a JSON object none of whose entries raises; in that case it is that loop's map |
| Config.TargetMapFromEntries | src/config.py:58-81 | a non-empty `TARGET_MAP` is the map of a JSON object's entries |
| Config.LoadNotifyOnly | src/config.py:87-114 | the `NOTIFY_ONLY` block returns the specified set or the first exception, which aborts start-up |
| Config.NotifySetSpec | src/config.py:102-114 | the loop raises exactly when some key raises; otherwise the set holds exactly the parsed keys, without the entries whose topic is not an integer |
| Config.NotifyKeysSpec | src/config.py:89-100 | the keys are a JSON object's keys, a JSON list's items, none for other JSON, and for text that is not JSON its non-empty, stripped, comma-free pieces |
| Scan.Search | src/parser_signal.py:46 | `re.search` returns the match at the leftmost position where the pattern matches, and nothing exactly when it matches nowhere |
| Scan.Longest | src/parser_signal.py:55 | greedy repetition takes the largest count that lets the rest match |
| Scan.Lit | src/parser_signal.py:46 | a literal under `re.I` matches exactly where each character equals it ignoring case |
| Scan.Exact | src/parser_signal.py:60 | a case-sensitive literal matches exactly where it occurs |
| Scan.Char | src/parser_signal.py:104 | one character matches exactly where it stands |
| Scan.Dash | src/parser_signal.py:75 | `[-–]` matches a hyphen or an en dash |
| Scan.OptI | src/parser_signal.py:75 | an optional character under `re.I` is taken exactly when it is there |
| Scan.Bound | src/parser_signal.py:46 | `\b` matches exactly between a word and a non-word character |
| Scan.Spaces | src/parser_signal.py:75 | `\s*` takes the whole run of whitespace |
| Scan.Spaces1 | src/parser_signal.py:75 | `\s+` matches exactly before whitespace and takes the whole run |
| Scan.Digits1 | src/parser_signal.py:125 | `\d+` matches exactly before a digit and takes digits only |
| Scan.Num | src/parser_signal.py:6 | NUM matches exactly where a digit follows an optional sign, and the token has NUM's shape |
| Scan.CommaToDot | src/parser_signal.py:9 | `replace(",", ".")` changes exactly the commas |
| Scan.CommaIsDot | src/parser_signal.py:8-9 | `a,b` and `a.b` read as the same number |
| Scan.NOfNat | src/parser_signal.py:8-9 | a natural number written in decimal reads back as itself |
| Scan.FindNumsNoDigit | src/parser_signal.py:120-121 | a text with no digit yields no number |
| Telegram.ChatKeyOfChat | src/telegram_reader.py:104-105 | the chat key is the id when it is present and non-zero, otherwise the username, `None` when neither is there |
| Telegram.KeyValue | src/telegram_reader.py:151-152 | the chat key is a scalar Python value, usable as a dict key |
| Telegram.KeyText | src/telegram_reader.py:151 | `str(chat_key)` is `str` of the key's Python value |
| Telegram.PageAt | src/telegram_reader.py:119-127 | the `i`-th request is answered by the `i`-th page, and by an empty page past the given ones |
| Telegram.TitleOf | src/telegram_reader.py:134 | a topic's title is its own when non-empty; the result is never empty |
| Validator.LocalValidate | src/ai_api.py:8-35 | `local_validate` returns exactly the issues the rules specify, in the order they are appended |
| Validator.CollectTpIssues | src/ai_api.py:22-31 | the take-profit loop adds one issue per violating take-profit, numbered from 1, in order |
| Validator.TpRule | src/ai_api.py:22-31 | the loop's comparison is the side's take-profit rule: SHORT fails at or above the entry, LONG at or below |
| Validator.ViolatingTpsSpec | src/ai_api.py:22-31 | take-profit `j` (1-based) is reported exactly when it violates the rule, and the reported numbers ascend |
| Validator.IssueCount | src/ai_api.py:11-35 | the number of issues is one for an out-of-range entry, plus, for a valid side, one for a bad stop and one per violating take-profit, or else one for the side |
| Validator.NoViolatingTpsIff | src/ai_api.py:22-31 | no take-profit is reported exactly when none violates the rule |
| Validator.NoIssuesIff | src/ai_api.py:8-35 | no issue at all exactly when the entry is in range, the side is valid, and the stop and every take-profit are on the right side |
| Validator.InvalidSideIssues | src/ai_api.py:32-33 | an unknown side gives the side issue and no stop or take-profit issue |
| Validator.SameUpperSameIssues | src/ai_api.py:15 | the side is compared after upper-casing: two sides with the same upper-case form (`long`, `Long`, `LONG`) give the same issues |
| Validator.SideCaseInsensitive | src/ai_api.py:15 | any side that upper-cases to LONG or SHORT (such as `long` or `Short`) gives the same issues as that capital word |
| Planner.AllocByProfile | src/helpers.py:5-10 | the table raises `ZeroDivisionError` exactly for zero take-profits; otherwise it has one weight per take-profit (none for a negative count), and the weights sum to 1 |
| Planner.SumTables | src/helpers.py:6-9 | each fixed weight table sums to 1 |
| Planner.EvenAllocation | src/helpers.py:10 | any count other than 0, 3 and 4 gets equal weights `1/n` |
| Planner.AllocationTables | src/helpers.py:6-9 | three take-profits use `[0.50, 0.25, 0.25]` exactly for the `50_25_25` profile and `[0.35, 0.35, 0.30]` otherwise; four always use `[0.35, 0.35, 0.15, 0.15]` |
| Planner.AllocForSignal | src/helpers.py:46-47 | a signal with take-profits gets one weight per take-profit summing to 1; one without raises |
| Planner.ProfileKeywordPriority | src/helpers.py:20-30 | the scalp keyword wins, then the swing keyword, then any fixed default profile |
| Planner.KeywordAnyCase | src/helpers.py:20-25 | the keyword written in any case in the message selects the profile |
| Planner.AutoProfile | src/helpers.py:32-44 | in automatic mode the swing profile is chosen exactly when the first target is at least the threshold percentage from a positive entry price, and the scalp profile otherwise |
| Planner.CalcQty | src/helpers.py:49-53 | sizing raises its `ValueError` exactly when the stop equals the entry; otherwise the size times the stop distance is the amount at risk |
| Planner.BuildOrderPlan | src/helpers.py:55-87 | `build_order_plan` returns the specified plan, or the sizing exception |
| Planner.AppendTpOrders | src/helpers.py:72-79 | the zip loop appends one take-profit order per pair, in order |
| Planner.PlanFailsIff | src/helpers.py:58 | the plan fails exactly when both balance and risk are set and non-zero and the stop equals the entry |
| Planner.PlanRows | src/helpers.py:63-87 | a plan has `2 + min(len(tps), len(tp_alloc))` rows: the entry, the take-profit orders in zip order, then the stop |
| Planner.PlanShape | src/helpers.py:63-87 | the first row is ENTRY (LIMIT, not reduce-only, configured post-only); the last is SL (STOP, reduce-only, never post-only); between them TP1..TPk are reduce-only LIMITs with configured post-only, at the take-profit prices in input order |
| Planner.PlanTagsDistinct | src/helpers.py:63-86 | no two orders of a plan carry the same tag: `ENTRY`, `TP1`..`TPk` and `SL` all differ |
| Planner.TpTagsDistinct | src/helpers.py:72-79 | `f"TP{i}"` differs for different `i`, because `str` of an int reads back to it |
| Planner.PlanSides | src/helpers.py:59-61 | the entry sells for SHORT and buys otherwise, every other row takes the opposite side, and every row's symbol is the upper-cased symbol plus the suffix |
| Planner.UnsizedPlanHasZeroQty | src/helpers.py:58-85 | without balance or risk the plan never raises and, given that rounding keeps zero, every quantity is zero |
| Planner.TpQuantitiesAddUp | src/helpers.py:72-73 | without rounding, the take-profit quantities of a plan whose weights come from the profile table add up to the total quantity |
| SignalParser.PotentialSignalIff | src/parser_signal.py:16-22 | a text passes exactly when its lower-cased form contains `long` or `short` and one of `entrada`, `entry`, `tp`, `sl`, `stop` |
| SignalParser.PotentialSignalMonotone | src/parser_signal.py:16-22 | a text containing a text that passes also passes |
| SignalParser.ParseSignal | src/parser_signal.py:24-30 | the strict parser always raises `NotImplementedError` |
| SignalParser.Keyword | src/parser_signal.py:46 | `\b(?:LONG|SHORT)\b` under `re.I` matches a side word between two word boundaries |
| SignalParser.SideOf | src/parser_signal.py:46-49 | the side is taken from the leftmost position where a side word stands, and is absent exactly when there is none |
| SignalParser.SideAtIsSide | src/parser_signal.py:46-49 | however the word is written, the side is `LONG` or `SHORT` |
| SignalParser.SideOfIsSide | src/parser_signal.py:46-49 | a found side is `LONG` or `SHORT` |
| SignalParser.AlnumGroup | src/parser_signal.py:55 | `[A-Z0-9]{2,15}` under `re.I` is a 2 to 15 character ASCII alphanumeric piece of the text |
| SignalParser.Symbol1At | src/parser_signal.py:55 | rule 1's group is 2 to 15 ASCII letters or digits |
| SignalParser.Symbol2At | src/parser_signal.py:60 | rule 2's group is 2 to 15 capitals or digits |
| SignalParser.KeywordExact | src/parser_signal.py:65 | the case-sensitive side word matches `LONG` or `SHORT` between two word boundaries |
| SignalParser.Symbol1Of | src/parser_signal.py:55-57 | rule 1 is searched leftmost-first, and finds nothing exactly when it matches nowhere |
| SignalParser.Symbol2Of | src/parser_signal.py:59-62 | rule 2 is searched leftmost-first, and finds nothing exactly when it matches nowhere |
| SignalParser.Symbol3Of | src/parser_signal.py:63-67 | rule 3 is searched leftmost-first, and finds nothing exactly when it matches nowhere |
| SignalParser.KeywordOfExact | src/parser_signal.py:65 | a capitalised side word matches the case-insensitive pattern too, with the same end |
| SignalParser.CapitalsMakeGroup | src/parser_signal.py:55 | two or more capitals make an alphanumeric group |
| SignalParser.Rule3ImpliesRule1 | src/parser_signal.py:55-67 | wherever rule 3 matches, rule 1 matches too |
| SignalParser.Rule3NeverAfterRule1 | src/parser_signal.py:55-67 | when rule 1 finds nothing, rule 3 finds nothing |
| SignalParser.SymbolNeverFromRule3 | src/parser_signal.py:53-69 | the symbol always comes from rule 1 or rule 2: rule 3 never decides |
| SignalParser.UpperOfAlnumLength | src/parser_signal.py:57-62 | upper-casing a rule 1 or rule 2 group is ASCII upper-casing and keeps at least two characters |
| SignalParser.SymbolShape | src/parser_signal.py:53-69 | a parsed symbol is 2 to 15 capitals or digits |
| SignalParser.RuleGroupsShape | src/parser_signal.py:55-62 | the groups of rules 1 and 2 are 2 to 15 ASCII letters or digits |
| SignalParser.NumSpan | src/parser_signal.py:6 | `\s*` then NUM spans a non-empty token after the start |
| SignalParser.ColonNum | src/parser_signal.py:104 | `\s*:\s*` then NUM spans a non-empty token after the colon |
| SignalParser.DashNum | src/parser_signal.py:75 | `\s*[-–]\s*` then NUM spans a non-empty token after the dash |
| SignalParser.EntryBounds | src/parser_signal.py:71-101 | the entry range is ordered; the staggered rule's price is the midpoint; the single-price rule sets all three alike; and the price lies in the range unless a classic range states it explicitly |
| SignalParser.TpsChunkAt | src/parser_signal.py:116 | the `TPs:` group is non-empty and within one line |
| SignalParser.TpsChunkOneLine | src/parser_signal.py:116-119 | the chunk searched for take-profits is a non-empty piece of one line |
| SignalParser.TpItemAt | src/parser_signal.py:125 | `TP<n>:` captures a non-empty number after the label |
| SignalParser.JoinerNum | src/parser_signal.py:133 | a leverage joiner followed by a number spans a non-empty token |
| SignalParser.TagAt | src/parser_signal.py:144 | a tag is `#` followed by one or more word characters |
| SignalParser.TagsShape | src/parser_signal.py:144 | every collected tag has at least two characters, starts with `#`, and the rest are word characters |
| SignalParser.ParseFailsIff | src/parser_signal.py:32-151 | the tolerant parse succeeds exactly when side, symbol, entry, stop and at least one take-profit are all found; every failure is a `ValueError` |
| SignalParser.ParseFlexibleOk | src/parser_signal.py:146-151 | a successful parse is the signal assembled from the fields the rules found, leverage and tags included |
| SignalParser.ParsedSignalShape | src/parser_signal.py:43-151 | a parsed signal has side LONG or SHORT, a 2 to 15 character upper-case symbol, an ordered entry range and at least one take-profit; both leverages are set or neither is, tags start with `#`, and there are no notes |
| SignalParser.LeverageCases | src/parser_signal.py:131-141 | without a range both leverages are equal; they are absent exactly when neither rule matches, and set together |
| SignalParser.ReadSymbol | src/parser_signal.py:53-69 | the `sym` cascade ends with the specified symbol: each rule is tried only while `sym` is blank |
| SignalParser.ReadEntry | src/parser_signal.py:71-101 | the entry cascade finds a price exactly when one rule matches, and then returns that rule's low, high and price |
| SignalParser.CollectNums | src/parser_signal.py:119-121 | the `finditer(NUM)` loop collects every number of the chunk, left to right |
| SignalParser.CollectTpItems | src/parser_signal.py:124-126 | the `TP<n>:` loop collects every labelled value, left to right |
| SignalParser.ReadTps | src/parser_signal.py:112-129 | the take-profits are those of the first `TPs:` line, and the `TP<n>:` values only when that list is empty |
| SignalParser.ParseSignalFlexible | src/parser_signal.py:32-151 | `parse_signal_flexible` returns the specified signal, or raises at the first missing field |
| SignalParser.ReadSl | src/parser_signal.py:103-110 | the stop comes from `SL:` first, then from `Stop[ Loss]:` |
| SignalParser.ReadLeverage | src/parser_signal.py:131-141 | a range sets both bounds; otherwise a single value sets both |
| SignalParser.FlexibleNoSide | src/parser_signal.py:46-48 | with no side word the parse raises the side error |
| SignalParser.FlexibleNoSymbol | src/parser_signal.py:68-69 | a side but no symbol raises the symbol error |
| SignalParser.FlexibleNoEntry | src/parser_signal.py:99-101 | a side and a symbol but no entry raise the entry error |
| SignalParser.FlexibleNoSl | src/parser_signal.py:108-109 | everything up to the entry but no stop raises the stop error |
| SignalParser.FlexibleNoTps | src/parser_signal.py:128-129 | everything up to the stop but no take-profit raises the take-profit error |
| SignalParser.FlexibleFromFields | src/parser_signal.py:146-151 | with every required field found, the parse returns the assembled signal |
| TopicMap.AbsorbTopics | src/telegram_reader.py:129-137 | the loop over a page's topics gives the specified maps |
| TopicMap.FetchTopics | src/telegram_reader.py:116-140 | the page loop gives the specified maps and requests, with the `i`-th request answered by the `i`-th page |
| TopicMap.LookupKeys | src/telegram_reader.py:151 | the keys looked up are `chat_key` and `str(chat_key)`, both scalars |
| TopicMap.CollectAllowed | src/telegram_reader.py:154-161 | the whitelist loop gives the specified allowed set |
| TopicMap.BuildAllowed | src/telegram_reader.py:147-161 | the `if tm:` block gives the specified allowed set, or the error of a whitelist that cannot be iterated |
| TopicMap.GatherAllowed | src/telegram_reader.py:151-161 | the loop over the two keys unions their contributions and stops at a whitelist that cannot be iterated |
| TopicMap.FastTopicMap.constructor | src/telegram_reader.py:98-102 | a new cache has three empty maps |
| TopicMap.FastTopicMap.PreloadForChat | src/telegram_reader.py:107-164 | a non-forum chat changes nothing and requests nothing; a forum chat's two maps are replaced by the crawled ones and, when building succeeds, its allowed set (possibly empty) is stored; other chats are untouched |
| TopicMap.FastTopicMap.ResolveFromTop | src/telegram_reader.py:176-183 | the pair is found exactly for an id stored under the chat's key, and is then the stored pair; otherwise it is `(None, None)` |
| TopicMap.FastTopicMap.IsTopAllowed | src/telegram_reader.py:185-191 | a root message is allowed exactly when it is in the allowed set stored for the chat; an unknown chat or a missing id is denied |
| TopicMap.AddTopicsSpec | src/telegram_reader.py:129-137 | topics without a root message are skipped; every other topic is keyed in both maps and counted; each new entry of `top_to_topic` is the (id, title) of a listed topic with that root |
| TopicMap.CrawlRequests | src/telegram_reader.py:116-140 | at most five requests of 200 topics each, the first from topic 0 and each later one from the last topic of the previous page; none after an empty page; an early stop happens only on an empty page or once the count is reached |
| TopicMap.CrawlRounds | src/telegram_reader.py:118-139 | how many rounds the page loop makes, and that it stops early only on an empty page or a reached count |
| TopicMap.CrawlOffsets | src/telegram_reader.py:119-140 | each request asks for 200 topics, from `offset` first, then from the last topic of the page before |
| TopicMap.CrawlCoherent | src/telegram_reader.py:113-140 | when no two listed topics share a root message, every stored topic leads to a root that leads back to it, and every stored pair comes from a listed topic |
| TopicMap.AllowedFromSpec | src/telegram_reader.py:154-161 | a root message is allowed exactly when some whitelist entry converts with `int()` to a known topic whose root it is, and that root is not 0; other entries are dropped |
| TopicMap.AllowedSetSpec | src/telegram_reader.py:147-161 | without `TOPIC_MAP` the set is empty; building fails exactly when a whitelist under one of the two keys is truthy but not iterable; otherwise the set holds the non-zero roots of the known whitelisted topics |
| TopicMap.AllowedOverPair | src/telegram_reader.py:151-161 | over `(chat_key, str(chat_key))`, the first failing whitelist raises; otherwise the result is the union of both |
| TopicMap.AllowedTopResolves | src/telegram_reader.py:107-183 | when root messages are unique, an allowed root resolves to a topic that `TOPIC_MAP` whitelists for the chat |
| TopicMap.PermissionAgreesWithResolution | src/telegram_reader.py:107-191 | after a chat is preloaded from some pages, `is_top_allowed` implies that `resolve_from_top` finds a topic and that the topic is whitelisted for the chat |
| TopicMap.UnknownChatFailsClosed | src/telegram_reader.py:176-191 | a chat that was never preloaded resolves nothing and allows nothing |
| Resolver.CachedTopic | src/utils/utils_topic.py:52-53 | the lookup finds a pair exactly when the chat and root message are cached, and then the cached pair |
| Resolver.AsPair | src/utils/utils_topic.py:54-60 | a found pair is returned as it is; a miss gives `(None, None)` |
| Resolver.FetchMapping | src/utils/utils_topic.py:23-42 | the page loop builds the specified mapping and requests |
| Resolver.TopicResolver.constructor | src/utils/utils_topic.py:10-14 | a new resolver stores its page budget and page size and starts with an empty cache |
| Resolver.TopicResolver.EnsureCache | src/utils/utils_topic.py:16-45 | `_ensure_cache` leaves the cache and requests as the specification gives them from the old cache |
| Resolver.TopicResolver.TopmsgToTopic | src/utils/utils_topic.py:47-60 | `topmsg_to_topic` returns the specified pair, cache and requests |
| Resolver.MapTopicsSpec | src/utils/utils_topic.py:36-38 | a page adds exactly the root messages present, and every new or replaced entry is the (id, title) of a listed topic |
| Resolver.FetchRequests | src/utils/utils_topic.py:25-42 | at most the remaining rounds of requests, each for `page_size` topics, the first from `offset`, each later one from the last topic of the page before, and none after an empty page; an early stop happens only on an empty page or once the count is reached |
| Resolver.EnsureCacheFrame | src/utils/utils_topic.py:16-45 | only the chat's own entry can change, and only to a non-empty mapping; a chat that had topics keeps some; an empty listing changes nothing; a forum chat that is forced or has nothing cached makes exactly the crawl's requests and, when the crawl found topics, gets exactly the crawled mapping; at most `pages` requests, and none unless forced or nothing is cached for the chat |
| Resolver.TopmsgSpec | src/utils/utils_topic.py:47-60 | a missing id gives `(None, None)` with no request; a hit after the first fill makes only the first fill's requests, with no refresh; a miss makes exactly one forced refresh, whose cache is the one kept and whose requests follow the first fill's; the answer is the pair cached for the root message at the end; at most twice the page budget is requested, each request for `page_size` topics |
| Resolver.CachedHitNoRequest | src/utils/utils_topic.py:47-55 | a root message already cached for the chat, forum or not, is answered from the cache with no request |
| Extract.PyOr | src/telegram_reader.py:208 | `a or b` is `a` when truthy and `b` otherwise |
| Extract.AcceptFails | src/telegram_reader.py:209-212 | accepting a candidate raises exactly for an integer-like text that `int()` cannot read (several leading `-`, or a superscript digit); where texts are not accepted, only ints pass |
| Extract.AcceptIntText | src/telegram_reader.py:211-212 | the text of an integer is accepted as that integer where texts are accepted, and ignored where they are not |
| Extract.ReaderRaisesOnlyOnBadIntText | src/telegram_reader.py:197-236 | the reader's extraction raises only when one of the three direct candidates is an integer-like text that `int()` cannot read, like `--5` or `²` |
| Extract.VariantsAgreeWithoutTexts | src/utils/utils_topic.py:63-97 | when none of the direct candidates is a text, both variants give the same id |
| Extract.HeaderFirst | src/telegram_reader.py:205-212 | an int in the reply header is the answer in both variants, whatever the other sources hold |
| Extract.UtilsSources | src/utils/utils_topic.py:63-97 | the resolver's id is an int from one of the direct candidates, or the `to_dict()` fallback's result; no message gives `None` |
| Extract.ReaderTakesHeaderText | src/telegram_reader.py:205-212 | an integer text in the reply header is taken by the reader, while the resolver passes it over to `to_dict()` |
| Router.UserKey | src/telegram_reader.py:289-290 | the user key is present exactly for a non-empty username, and is then that name without `@`, lower-cased |
| Router.ChatTitle | src/telegram_reader.py:343 | a non-empty title is used as the chat title |
| Router.TargetCandidates | src/telegram_reader.py:316-331 | six keys are tried with a usable username and three without |
| Router.FirstHitSpec | src/telegram_reader.py:316-332 | the first present candidate decides, and the fallback is used exactly when none is present |
| Router.TargetFirstHit | src/telegram_reader.py:314-332 | the destination cascade is first-hit-wins over (id, topic), (user, topic), (id, root), (user, root), (id, whole chat), (user, whole chat), with `TARGET_CHAT` last |
| Router.TopicEntryWins | src/telegram_reader.py:318-319 | an exact (chat id, topic) entry beats every other entry |
| Router.EmptyTargetMap | src/telegram_reader.py:315-332 | with an empty `TARGET_MAP` everything goes to `TARGET_CHAT` |
| Router.DeliverIff | src/telegram_reader.py:274-349 | the handler is reached exactly when there are sources, the chat matches by id or normalised username, the root id is readable, the allow gate passes or `TOPIC_MAP` is falsy, and the stripped text is non-empty |
| Router.DeliveredEvent | src/telegram_reader.py:311-349 | a delivered message carries the stripped text, the topic resolved from its root id, the cascade's destination, the user key and the chat title |
| Router.NoSourcesDiscovers | src/telegram_reader.py:276-283 | without sources the router only discovers chats |
| Router.SourceMatchIgnoresAt | src/telegram_reader.py:289-291 | a source handle matches the chat's username whatever its case or leading `@` |
| Router.NoTopicMapNoGate | src/telegram_reader.py:302-309 | with a falsy `TOPIC_MAP` every readable, non-empty message of a source chat is delivered, whatever the topic cache holds |
| Router.GatedDeliveryIsAllowed | src/telegram_reader.py:302-309 | with `TOPIC_MAP` set, a delivered message's root id is in the chat's allowed set, so a message outside any topic is never delivered |
| Handler.AllowedInts | src/main.py:41-44 | every id in the whitelist set is the `int()` of one of its items |
| Handler.NotifyCandidates | src/main.py:70-78 | four keys are tried with a usable username and two without |
| Handler.OnSignalMessage | src/main.py:51-171 | `on_signal_message` makes exactly the specified sequence of Telegram calls |
| Handler.ReplyAfter | src/main.py:97-163 | after the forward or notice it sends the parse notice, the report, or the error the report raised |
| Handler.ParseBoth | src/main.py:97-105 | the strict parser is tried first, then the tolerant one |
| Handler.ReportReply | src/main.py:107-163 | a failed parse sends the notice; a successful one sends the report or its error |
| Handler.SignalActionsCases | src/main.py:59-66 | a non-signal sends nothing, a failing `in` on `TOPIC_MAP` sends only the error message, and a disallowed topic sends nothing |
| Handler.ReportMessage | src/main.py:115-160 | the report is validation, profile, allocation, plan and parts joined as specified, or the exception raised on the way |
| Handler.BuildParts | src/main.py:144-158 | the `parts.append` steps build the specified list |
| Handler.NoMapNoTopic | src/main.py:29-31 | `_topic_allowed` is false without a truthy `TOPIC_MAP` or without a topic |
| Handler.AllowedUnderDict | src/main.py:34-46 | on a JSON object, the first present key decides, an absent one passes to the next, and no key means false |
| Handler.TopicAllowedOnDict | src/main.py:24-46 | on a JSON object, the entry under the chat id as an int, else as its text, decides: the topic is allowed exactly when it is among that entry's int values; no entry, not allowed |
| Handler.JsonKeysAreTexts | src/main.py:33-36 | when every key is a text, only the entry under the chat id's decimal text can decide |
| Handler.AllowedIntsOfInts | src/main.py:41-42 | a whitelist of ints allows exactly those ints |
| Handler.AllowedIntsRefused | src/main.py:41-44 | one value `int()` refuses empties the whitelist |
| Handler.ScalarMapRaises | src/main.py:35-36 | a truthy `TOPIC_MAP` that is neither a list nor an object makes `chat_id in tm` raise |
| Handler.NotifyOnlyIff | src/main.py:69-78 | notify-only holds exactly when one of (chat, topic), (chat, None), (user, topic), (user, None) is listed, the user keys only for a usable username |
| Handler.NonSignalSendsNothing | src/main.py:60-61 | a text that does not look like a trade sends nothing |
| Handler.DisallowedSendsNothing | src/main.py:64-66 | a topic `_topic_allowed` refuses sends nothing |
| Handler.NoWhitelistNothingSent | src/main.py:29-31 | without a topic whitelist nothing is forwarded or sent |
| Handler.ActionsShape | src/main.py:51-171 | at most two calls are made, all to the routed destination, and a failing `in` on `TOPIC_MAP` gives the single error message |
| Handler.AllowedSignal | src/main.py:80-163 | an allowed signal gives two calls: the notice for a notify-only chat, else the forward; then the parse notice when both parsers fail, else the report or the error it raised |
| Handler.ReportFailsIff | src/main.py:115-141 | after a successful parse the report fails exactly when risk and balance are non-zero and the stop equals the entry |
| Handler.ReportPartsOrder | src/main.py:144-160 | the parts are the validation verdict, then the Gemini note only when non-empty, then the profile, the signal and the plan |
| Handler.RoutedWithoutWhitelist | src/main.py:29-31 | a message the router delivers while `TOPIC_MAP` is falsy makes the handler send nothing |

## Left out

- **Telegram client I/O**: login (`ensure_login`), `run_forever`, client construction, `get_entity`, `get_chat` and the send and forward calls. None of these are modelled. A failure of a send or of `get_chat` is not modelled; the router's own `except` branches are therefore not represented.
- **Prewarm task**: the background `asyncio.create_task` prewarm and `preload_for_sources` are not modelled as concurrency. A chat the prewarm has not reached yet is a cache with no entry for it (`TopicMap.UnknownChatFailsClosed`).
- **Topic listing**: `GetForumTopicsRequest` is replaced by an input sequence of pages. Each page has topics with an id, an optional root message and an optional title, plus an optional count.
- **Gemini**: `setup_gemini` and `gemini_validate` are a foreign AI call. The handler receives their answer as a parameter, and the bybit mock and its `place_orders` are left out.
- **Discovery scripts**: src/discover is not part of this model.
- **Output calls**: `print` and logging calls are left out. The discovery branch of the router is only the outcome `Discovery`.
- **Floats**: numbers are reals. `float()` parsing is exact decimal reading. `round(x, p)` is a parameter of the plan, and the plan text uses `str()` of an order, also a parameter. Weights sum to 1 over the reals, not within float tolerance.
- **Settings sources**: `os.getenv` and `json.loads` are inputs. A setting is an optional string, and the JSON decoder is a parameter that returns a Python value, or nothing when the text is not JSON. The model assumes the decoder returns objects whose keys are distinct, as `json.loads` does (a repeated key keeps one entry); nothing in the model enforces it, and a decoder that returned duplicate entries would make `Config.TargetEntries` and `Config.NotifyKeys` process a key twice.
- **Regular expressions**: they are hand-written scanners for the specific patterns. `\w`, `\s`, `\d`, case folding, `str.isdigit()`, `int()` and `float()` cover ASCII and Latin-1 only, and `str.lower`/`str.upper` use the same character tables. Full Unicode case mapping is not modelled. Digits beyond U+00FF are treated as plain symbols: Python reads `SOURCE_CHAT="٣"` (U+0663) as the id 3 and `"Entrada: ٣"` as an entry of 3.0, where the model keeps the handle "٣" and finds no entry; likewise `str.isdigit()` accepts "①" (U+2460), which the model does not.
- **Bool ids**: `bool` values count as ints where Python's `isinstance(v, int)` would, but `True`/`False` never occur as chat or topic ids in the model's events.
- **`first_name`**: the model has one `None` for a chat without the attribute and for `first_name = None`. `getattr(chat_obj, "first_name", "Privado")` gives "Privado" only when the attribute is missing, and `None` when it is set to `None`. `Router.ChatTitle` gives "Privado" in both cases.
- **`NOTIFY_ONLY` order**: the loop adds to a set, so its order has no observable effect, and `Config.NotifySetSpec` states the set only.
- **Strict parser**: `parse_signal` is modelled as the stub in the source, which always raises.
- **Other settings**: `TG_API_ID`, `TG_API_HASH`, `TG_SESSION_NAME`, the Gemini settings, and the float parsing of the trading settings are not modelled. The trading settings are fields of the handler's settings.
- **`str(o)` of a signal or order**: a parameter, since it is the dataclass `repr` formatting of floats.
- Handler.AllowedInts: its own contract states only that every id comes from an item; that every item counts when all convert, and none when one does not, is stated by `Handler.AllowedIntsOfInts` and `Handler.AllowedIntsRefused` for the whitelist shapes they cover.
- **`str()` of floats and containers**: `PyValues.Str` takes it from a parameter `repr`. Only texts and ints are given exact results.

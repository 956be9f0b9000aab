# sysallnet_maimai — a verified model of the TurboNET maimai bot plugin

`plugins/sysallnet_maimai.py` is a NoneBot plugin. It binds QQ users to a
TurboNET BotKey and answers chat commands by calling the TurboNET web API
with that key. This project models the plugin in Dafny and proves what its
handlers do.

- **The credential table** (`Credentials`) is a class over a
  `map<string, string>` from QQ id to BotKey. `Set` upserts an entry and
  `Get` reads one. `AuthHeaders` builds the single
  `Authorization: BotKey <key>` header, or the empty map when the QQ has no
  key.
- **JSON values** (`JsonValue`) cover the decoded response bodies. The module
  models Python truthiness, `x or y`, `dict.get` (the last duplicate key
  wins, and an absent key gives `None`), `str`/`repr`, and the
  plugin's helpers `_to_int` and `_fmt_number`.
- **Python text functions** (`PyText`) cover what the handlers use on
  message text: `strip`, `split`, `int(str)` and `"\n".join`.
- **Python floats** (`PyFloat`) cover what `_fmt_number` needs of `float()`
  and `f"{x:.{nd}f}"`: ints round to the nearest double, ties to even, and
  raise OverflowError beyond its range; text may be a signed integer in
  ASCII digits or one of the words `inf`, `infinity` and `nan`; a negative
  zero keeps its sign.
- **Handlers** are functions of the key table, the sender and the argument
  text. They return an `Outcome`: either a direct `Reply`, or a `Call`
  holding the HTTP `Request` and an `Ending`. The ending says which
  handler's continuation (`Commands.Finish`) turns the `Response` into the
  final message (`Say`), or into an uncaught exception (`Crash`).
  - `Bind` covers `/bind`.
  - `Profile` covers `/mai`.
  - `NetworkStatus` covers `/status` and `/net`.
  - `Tickets` covers `/run`, `/go`, `/norun` and `/getrun`.
  - `Arcade` covers the `<机厅代号>j` trigger.
- **`Commands`** puts the handlers side by side. It proves properties that
  hold across all of them:
  - which key each request carries;
  - that an unbound caller never causes a request;
  - that only `/bind` writes the table.
- **Loops:** each loop of the source is a method with a `for` loop proved
  equal to its specification function. These are the status `data[:5]`
  loop, the two `[:3]` song loops, the player list and the `/net`
  enumeration. They share `Api.RenderNumbered`.

The administrator's QQ (`SYSALLNET_ADMIN_QQ`) is a string parameter. The
HTTP exchange is modelled as one `Response` value that is given as input:
a transport error, or a status code with a body and its decoded JSON, if
the body decodes.

## Model

| member | source | states |
|---|---|---|
| Credentials.Lookup | plugins/sysallnet_maimai.py:92-103 | a stored QQ gives its key, and a QQ never stored gives None |
| Credentials.AuthHeaders | plugins/sysallnet_maimai.py:106-117 | no header exactly when the QQ has no key or an empty one; otherwise exactly `{"Authorization": "BotKey " + key}` |
| Credentials.CredentialStore.constructor | plugins/sysallnet_maimai.py:56-71 | a newly created table holds no binding |
| Credentials.CredentialStore.Set | plugins/sysallnet_maimai.py:76-90 | upsert: the QQ now maps to the new key, and every other QQ keeps its entry |
| Credentials.CredentialStore.Get | plugins/sysallnet_maimai.py:92-103 | returns the stored key, or None, without changing the table |
| Credentials.SetTwice | plugins/sysallnet_maimai.py:76-90 | binding twice keeps the second key and leaves other QQs alone |
| Credentials.NeverSet | plugins/sysallnet_maimai.py:92-117 | a QQ never bound has no key and no header |
| JsonValue.Or | plugins/sysallnet_maimai.py:309-312 | `x or y` is x when x is truthy, and y otherwise |
| JsonValue.Truthy | plugins/sysallnet_maimai.py:301-330 | Python truthiness: None, false, 0, empty text, empty lists and empty dicts are falsy |
| JsonValue.LastAt | plugins/sysallnet_maimai.py:309-312 | the index of the last member of a prefix bound to a key, every later member of the prefix binding another key; -1 exactly when no member binds it |
| JsonValue.Get | plugins/sysallnet_maimai.py:309-312 | an absent key gives None; a key bound by the last member gives that member's value |
| JsonValue.GetFound | plugins/sysallnet_maimai.py:309-312 | a non-None result is the value of some binding of that key |
| JsonValue.GetLastBinding | plugins/sysallnet_maimai.py:309-312 | whatever the earlier members, `get` returns the value of the last member binding the key |
| JsonValue.PyStr | plugins/sysallnet_maimai.py:315-330 | `str(v)`: text as it is, anything else as its `repr` |
| JsonValue.Repr | plugins/sysallnet_maimai.py:286 | `repr(v)`: None, True/False, digits, quoted text, bracketed lists and braced dicts |
| JsonValue.ReprFields | plugins/sysallnet_maimai.py:286 | a dict lists one entry per key, where the key first occurs, holding the key's last value |
| JsonValue.LastAtIsGet | plugins/sysallnet_maimai.py:286 | the value a dict shows for a key is the one `get` returns |
| JsonValue.ReprDuplicateKey | plugins/sysallnet_maimai.py:286 | `{"a": 1, "a": 2}` shows as `{'a': 2}` |
| JsonValue.ToInt | plugins/sysallnet_maimai.py:133-138 | `_to_int`: an int as it is, a bool as 0 or 1, integer text as its value, anything else the default |
| JsonValue.ToIntOfInt | plugins/sysallnet_maimai.py:133-138 | `_to_int` returns an int unchanged |
| JsonValue.ToIntOfText | plugins/sysallnet_maimai.py:133-138 | `_to_int` of an integer's decimal text is that integer |
| JsonValue.ToIntFallback | plugins/sysallnet_maimai.py:133-138 | None, lists, dicts and text without a digit give the default |
| JsonValue.ToIntExample | plugins/sysallnet_maimai.py:133-138 | `_to_int("3", 0)` is 3 |
| JsonValue.ToFloat | plugins/sysallnet_maimai.py:124 | `float(v)`: bools as 0 and 1, ints rounded (None beyond range), text in ASCII digits or a special word as `float()` reads it, None otherwise |
| JsonValue.FmtNumber | plugins/sysallnet_maimai.py:120-130 | `_fmt_number`: 未知 for None, `str(v)` when `float()` raises, otherwise the fixed-point text and the suffix |
| JsonValue.FmtNumberCases | plugins/sysallnet_maimai.py:120-130 | None gives 未知; a value `float()` rejects, including lists, dicts and ints beyond the double range, gives its `str` without suffix; any other gives its fixed-point text plus the suffix |
| JsonValue.FmtNumberOfInt | plugins/sysallnet_maimai.py:120-130 | an int of magnitude at most 2^53 prints as its own `nd`-place text, then the suffix |
| JsonValue.FmtNumberOfLargeInt | plugins/sysallnet_maimai.py:120-130 | 2^53 + 1 prints as 2^53 does; an int beyond the double range prints as its `str`, without places or suffix |
| JsonValue.FmtNumberOfSpecialText | plugins/sysallnet_maimai.py:120-130 | "-0" prints with its minus sign; "inf", "-Infinity" and "nan" print as inf, -inf and nan followed by the suffix |
| JsonValue.FmtNumberExample | plugins/sysallnet_maimai.py:120-130 | `_fmt_number(12, 2, "%")` is `12.00%` |
| PyFloat.RoundToMultipleNearest | plugins/sysallnet_maimai.py:124 | rounding to a multiple of `p` gives one of the two multiples around `m`, within `p/2` of it, and the even one at a tie |
| PyFloat.RoundMagnitude | plugins/sysallnet_maimai.py:124 | the result is a multiple of the last kept bit next to the input, within half a unit of it, and at a tie the one with an even significand |
| PyFloat.SignificandFits | plugins/sysallnet_maimai.py:124 | the kept bits fit 53 bits, so the rounded value is a double |
| PyFloat.IntToFloat | plugins/sysallnet_maimai.py:124 | `float(i)`: None from 2^1024 - 2^970 on, otherwise the nearest double |
| PyFloat.TextToFloat | plugins/sysallnet_maimai.py:124 | `float(s)` on whitespace-stripped text: signed ASCII-digit integers, a signed zero, infinities and NaN in any case; None otherwise |
| PyFloat.FormatFixed | plugins/sysallnet_maimai.py:125 | `f"{x:.{nd}f}"`: digits and `nd` zeros, -0 keeps its sign, inf/-inf/nan as words |
| PyFloat.RoundExact | plugins/sysallnet_maimai.py:124 | every int of magnitude at most 2^53 converts to itself |
| PyFloat.RoundAbove53 | plugins/sysallnet_maimai.py:124 | 2^53 + 1 converts to 2^53 (the tie goes to the even neighbour) |
| PyFloat.FmtDecShape | plugins/sysallnet_maimai.py:125 | an integral value prints as its digits, then a point and exactly `nd` zeros when `nd > 0` |
| PyFloat.NegativeZeroText | plugins/sysallnet_maimai.py:124 | `float("-0")` is a negative zero |
| PyFloat.InfinityText | plugins/sysallnet_maimai.py:124 | `float("inf")` is positive infinity |
| PyFloat.NegativeInfinityText | plugins/sysallnet_maimai.py:124 | `float("-Infinity")` is negative infinity, whatever the case of the word |
| PyFloat.NanText | plugins/sysallnet_maimai.py:124 | `float("nan")` is NaN |
| PyFloat.WordFloat | plugins/sysallnet_maimai.py:124 | any unsigned, space-free spelling of inf or nan, in any case, converts to positive infinity or NaN |
| PyFloat.NegatedWordFloat | plugins/sysallnet_maimai.py:124 | a minus sign before any spelling of infinity, in any case, gives negative infinity |
| PyText.LStrip | plugins/sysallnet_maimai.py:165 | a suffix of the input that starts with a non-space, after a run of whitespace |
| PyText.RStrip | plugins/sysallnet_maimai.py:165 | a prefix of the input that ends with a non-space, before a run of whitespace |
| PyText.Strip | plugins/sysallnet_maimai.py:165 | `strip()`: both runs of whitespace removed |
| PyText.StripEmpty | plugins/sysallnet_maimai.py:165-172 | `strip()` is empty exactly when the text is all whitespace; otherwise it starts and ends with a non-space |
| PyText.StripNoSpace | plugins/sysallnet_maimai.py:784 | text without whitespace strips to itself |
| PyText.WordLength | plugins/sysallnet_maimai.py:173 | the first word ends at the first whitespace or at the end |
| PyText.SplitWords | plugins/sysallnet_maimai.py:173 | every piece of `split()` is non-empty and has no whitespace |
| PyText.SplitFirst | plugins/sysallnet_maimai.py:173 | `split()` is empty exactly for all-whitespace text; its first piece is the leading word |
| PyText.FirstWord | plugins/sysallnet_maimai.py:173 | `split()[0]` of text with a non-space is a non-empty word without whitespace |
| PyText.Split | plugins/sysallnet_maimai.py:173 | `split()`: the maximal runs of non-whitespace, in order |
| PyText.NatText | plugins/sysallnet_maimai.py:582 | `str` of a natural number is a non-empty run of digits |
| PyText.IntText | plugins/sysallnet_maimai.py:582 | `str` of an int is non-empty and has no whitespace |
| PyText.NatTextCanonical | plugins/sysallnet_maimai.py:582 | the decimal text starts with 0 only for 0 |
| PyText.DigitsOfNatText | plugins/sysallnet_maimai.py:555 | reading back the digits of `str(n)` gives n |
| PyText.ParseIntText | plugins/sysallnet_maimai.py:555 | `int(str(i)) == i` for every int |
| PyText.ParseIntNeedsDigit | plugins/sysallnet_maimai.py:554-557 | text without a digit makes `int()` raise ValueError |
| PyText.NumLStrip | plugins/sysallnet_maimai.py:555 | the suffix `int()` reads after its leading whitespace; separators 0x1C-0x1F are not skipped |
| PyText.NumRStrip | plugins/sysallnet_maimai.py:555 | the prefix left once `int()` drops its trailing whitespace |
| PyText.NumStripNoSpace | plugins/sysallnet_maimai.py:555 | text without whitespace is read as it is |
| PyText.ParseInt | plugins/sysallnet_maimai.py:555-557 | `int(s)`: an optionally signed run of digits inside whitespace, or None (ValueError) |
| PyText.ParseIntAfterSpace | plugins/sysallnet_maimai.py:555 | a leading space is skipped: `int(" " + str(i)) == i` |
| PyText.ParseIntAfterSeparator | plugins/sysallnet_maimai.py:555 | a leading separator character 0x1C-0x1F makes `int()` raise, though `strip()` removes it |
| PyText.NumStripKeepsHead | plugins/sysallnet_maimai.py:555 | text that starts with a non-whitespace keeps that first character |
| PyText.JoinWithSnoc | plugins/sysallnet_maimai.py:222 | joining one more line appends the separator and that line |
| PyText.JoinWithHead | plugins/sysallnet_maimai.py:222 | a joined message starts with its first line |
| Api.Failure | plugins/sysallnet_maimai.py:184-197 | no failure exactly on HTTP 200; a transport error reports the prefix, `：` and the error; another status reports `<path> 返回异常（HTTP <status>）：<message><hint>` |
| Api.ErrorMessage | plugins/sysallnet_maimai.py:184-197 | `err.get("message") or str(err)` for a dict body, and the raw text otherwise |
| Api.ErrorMessageCases | plugins/sysallnet_maimai.py:184-197 | a non-empty message as it is; a dict without one as its `str`, `{}` when empty; the raw text for an undecodable or non-dict body |
| Api.NotBound | plugins/sysallnet_maimai.py:542-548 | every bind-first message starts with 你还没有绑定 BotKey， |
| Api.NumberedLines | plugins/sysallnet_maimai.py:904-909 | a numbered loop succeeds when every entry renders; the k-th line is entry `first + k` |
| Api.NumberedFirst | plugins/sysallnet_maimai.py:505 | the loop over `xs[:cap]` renders exactly the first min(cap, len) entries, in order |
| Api.RenderNumbered | plugins/sysallnet_maimai.py:904-909 | the `for` loop builds exactly the numbered lines of its specification, or fails as it does |
| Bind.Bind | plugins/sysallnet_maimai.py:150-224 | the reply is `HandleBind`'s; the caller's entry is overwritten with the returned key exactly when one came back, and otherwise the table is unchanged |
| Bind.HandleBind | plugins/sysallnet_maimai.py:165-183 | the usage text for an empty argument; otherwise the bind request for the first word |
| Bind.ReturnedKey | plugins/sysallnet_maimai.py:201-213 | the key stored: the `botKey` of a 200 dict when it is non-empty text |
| Bind.BindAfter | plugins/sysallnet_maimai.py:184-224 | the failure messages, the parse error, the missing-key message, a raise for a non-dict body or non-text key, or the confirmation |
| Bind.BindStoresOnlyOnSuccess | plugins/sysallnet_maimai.py:185-215 | a key is stored exactly for HTTP 200 with a dict whose `botKey` is non-empty text, and that text is what is stored |
| Bind.FailureIsNotSuccess | plugins/sysallnet_maimai.py:184-197 | no transport or status failure message starts with 绑定成功！ |
| Bind.BindConfirmsIffStored | plugins/sysallnet_maimai.py:184-224 | the reply starts with 绑定成功！ exactly when a key is stored |
| Bind.BindSendsToken | plugins/sysallnet_maimai.py:165-183 | an empty argument gets the usage text; otherwise POST /bot/bind with the first word as botToken, botName yibot, and no header |
| Bind.BindFailureMessages | plugins/sysallnet_maimai.py:184-197 | a transport error reports `请求 /bot/bind 失败：<error>`; a non-200 status ends with the botToken hint |
| Bind.BindReplyStartsWithSuccess | plugins/sysallnet_maimai.py:217-222 | the confirmation starts with 绑定成功！, with or without a botId |
| Bind.BindThenHeader | plugins/sysallnet_maimai.py:106-117 | after a successful bind, the caller's header carries the returned key |
| Profile.RenderSection | plugins/sysallnet_maimai.py:377-408 | the song loop builds exactly the section of its specification: nothing for an empty list, otherwise the title and at most three songs |
| Profile.HandleMai | plugins/sysallnet_maimai.py:249-280 | the usage text, the bind-first message, or POST /web/user for the first word |
| Profile.MaiAfter | plugins/sysallnet_maimai.py:280-436 | the failure messages, the parse error, a raise when building the report fails, or the joined report |
| Profile.ProfileLines | plugins/sysallnet_maimai.py:299-436 | the identity, statistics and play blocks, then the two song sections; None when building it raises |
| Profile.BestEntry | plugins/sysallnet_maimai.py:382-408 | a Best 35 line: title, level, difficulty, then achievement, score and rank when present |
| Profile.RecentEntry | plugins/sysallnet_maimai.py:414-434 | a recent line: title and level, then achievement and rank when present |
| Profile.MaiChecksArgumentFirst | plugins/sysallnet_maimai.py:249-263 | an empty argument gets the usage text before the key check; a non-empty one without a key gets the bind-first message |
| Profile.MaiSendsQuery | plugins/sysallnet_maimai.py:255-280 | POST /web/user?requesterId=<qq> with the first word as turboName and the caller's header |
| Profile.SongSectionShape | plugins/sysallnet_maimai.py:377-436 | an empty list omits the section; otherwise a blank line, the title and entries 1..min(3, len) in order |
| Profile.DetailStartsWithTitle | plugins/sysallnet_maimai.py:384-406 | a song's detail line starts with `i. <musicName>` |
| Profile.SongLineStartsWithTitle | plugins/sysallnet_maimai.py:382-434 | best and recent lines start with the numbered title; a missing name gives 未知曲目 |
| Profile.BareSongLine | plugins/sysallnet_maimai.py:382-434 | a song with only a name is the line `i. <name>` |
| Profile.ProfileRaises | plugins/sysallnet_maimai.py:299-364 | a non-dict body, or truthy non-dict statistics or activity, makes the handler raise |
| Profile.EmptyProfile | plugins/sysallnet_maimai.py:299-376 | an empty body shows the two name lines, the statistics title with DX Rating 未知, and the play-activity title |
| Profile.IdentityHead | plugins/sysallnet_maimai.py:299-318 | the first two lines are always the TurboNET name and the maimai name, with their fallbacks |
| Profile.StatsHead | plugins/sysallnet_maimai.py:332-343 | the statistics block always opens with a blank line, its title and the DX Rating line |
| Profile.IdentityMinimal | plugins/sysallnet_maimai.py:301-330 | only the name lines appear exactly when every optional identity field is absent or falsy |
| Profile.StatsMinimal | plugins/sysallnet_maimai.py:335-355 | only the DX Rating line appears exactly when the six other figures are absent |
| Profile.LastPlayLine | plugins/sysallnet_maimai.py:363-376 | a truthy last play ends the block, with the version in brackets when there is one |
| Profile.LineDiffers | plugins/sysallnet_maimai.py:299-376 | two lines that differ at one position are different lines |
| Profile.NotInWhen | plugins/sysallnet_maimai.py:299-376 | a line unlike an optional line is not among the lines it adds |
| Profile.IdentityQqLine | plugins/sysallnet_maimai.py:319-320 | the QQ line is shown exactly when `qqNumber` is truthy |
| Profile.IdentitySelfLine | plugins/sysallnet_maimai.py:321-322 | 是否本人 (是 or 否) is shown exactly when `isMe` is not None |
| Profile.IdentityPermissionLine | plugins/sysallnet_maimai.py:323-324 | the permission line is shown exactly when `permission` is truthy |
| Profile.IdentityWarningsLine | plugins/sysallnet_maimai.py:325-326 | the warning count is shown exactly when `warningTimes` is truthy |
| Profile.IdentityWarningLine | plugins/sysallnet_maimai.py:327-328 | the last warning is shown exactly when `warningMessage` is truthy |
| Profile.IdentityBanLine | plugins/sysallnet_maimai.py:329-330 | the ban line, with 无说明 for a missing reason, is shown exactly when `isBanned` is truthy |
| Profile.StatsRankLine | plugins/sysallnet_maimai.py:344-345 | the server ranking is shown exactly when `serverRanking` is not None |
| Profile.StatsAccuracyLine | plugins/sysallnet_maimai.py:346-347 | the average accuracy, two places and %, is shown exactly when `averageAccuracy` is not None |
| Profile.StatsComboLine | plugins/sysallnet_maimai.py:348-349 | the maximum combo is shown exactly when `maxCombo` is not None |
| Profile.StatsFullComboLine | plugins/sysallnet_maimai.py:350-351 | the Full Combo count is shown exactly when `fullCombo` is not None |
| Profile.StatsAllPerfectLine | plugins/sysallnet_maimai.py:352-353 | the All Perfect count is shown exactly when `allPerfect` is not None |
| Profile.StatsTotalLine | plugins/sysallnet_maimai.py:354-355 | the score total is shown exactly when `totalScores` is not None |
| Profile.PlayCountLine | plugins/sysallnet_maimai.py:367-368 | the play count is shown exactly when `playCount` is not None |
| Profile.PlayTimeLine | plugins/sysallnet_maimai.py:369-370 | the play time, one place and 小时, is shown exactly when `playTime` is not None |
| Profile.FirstPlayLine | plugins/sysallnet_maimai.py:371-372 | the first play is shown exactly when `firstPlay` is truthy |
| Profile.LastPlayShown | plugins/sysallnet_maimai.py:373-376 | the last play, with its version when given, is shown exactly when `lastPlay` is truthy |
| NetworkStatus.Translate | plugins/sysallnet_maimai.py:498-509 | known codes are translated, unknown ones pass through, and an unhashable value raises |
| NetworkStatus.RenderStatus | plugins/sysallnet_maimai.py:492-514 | the loop over `data[:5]` builds exactly the status lines of its specification |
| NetworkStatus.RenderNet | plugins/sysallnet_maimai.py:903-909 | the enumerate loop builds exactly the `/net` lines of its specification |
| NetworkStatus.HandleStatus | plugins/sysallnet_maimai.py:457-472 | the bind-first message, or GET /web/showNetworkStatus with the caller's header |
| NetworkStatus.StatusAfter | plugins/sysallnet_maimai.py:473-514 | the failure messages, the parse error, 当前没有机厅状态数据。 for a falsy body, a raise when a line fails, or the joined lines |
| NetworkStatus.StatusEntry | plugins/sysallnet_maimai.py:505-512 | `- <name> [<type>] 状态：<status>（最后心跳：<heartbeat>）` with the fallbacks; None for a non-dict |
| NetworkStatus.HandleNet | plugins/sysallnet_maimai.py:884-897 | the not-configured text, the admin-bind text, or GET /web/showNetworkStatus with the admin's header |
| NetworkStatus.NetAfter | plugins/sysallnet_maimai.py:895-911 | a transport error, a non-2xx status or an undecodable body raises; otherwise the joined lines, or a raise when one fails |
| NetworkStatus.NetEntry | plugins/sysallnet_maimai.py:904-909 | `<idx>.<name> 状态：<status> 最后返回心跳包时间：<heartbeat>`; None for a non-dict |
| NetworkStatus.StatusShowsFirstFive | plugins/sysallnet_maimai.py:495-512 | the header, then one line for each of the first min(5, len) arcades, in order |
| NetworkStatus.StatusEmpty | plugins/sysallnet_maimai.py:492-493 | a falsy body replies 当前没有机厅状态数据。 |
| NetworkStatus.NetEntryOrdinal | plugins/sysallnet_maimai.py:909 | every `/net` line starts with `<idx>.` |
| NetworkStatus.NetShowsAll | plugins/sysallnet_maimai.py:903-909 | `/net` lists every arcade, uncapped, numbered from 1 in order |
| NetworkStatus.NetUsesAdminKey | plugins/sysallnet_maimai.py:884-897 | an empty admin id gets the not-configured text; an unbound admin gets the bind text; otherwise GET /web/showNetworkStatus with the admin's header |
| NetworkStatus.TablesDiffer | plugins/sysallnet_maimai.py:901 | ERROR is 错误 for `/status` but 掉线啦！！！ for `/net`; unknown codes pass through in both |
| NetworkStatus.MissingFieldsFallBack | plugins/sysallnet_maimai.py:905-908 | a missing status reads 未知 in both tables, and a missing heartbeat reads 未知时间 |
| Tickets.RunRejectsBadArgument | plugins/sysallnet_maimai.py:550-557 | with a key, an empty argument gets the usage text and a non-integer first word gets the integer error |
| Tickets.RunSendsTicket | plugins/sysallnet_maimai.py:554-582 | POST /web/setTickets with `{"ticketId": x}` and the caller's header; HTTP 200 replies 绑定x倍跑图卷成功 |
| Tickets.RunChecksBindFirst | plugins/sysallnet_maimai.py:542-548 | without a key, the bind-first message comes before any argument check |
| Tickets.HandleRun | plugins/sysallnet_maimai.py:541-566 | the bind-first message, the usage text, the integer error, or POST /web/setTickets with the parsed multiplier |
| Tickets.SetAfter | plugins/sysallnet_maimai.py:567-582 | the failure messages, or 绑定X倍跑图卷成功 |
| Tickets.HandleGo | plugins/sysallnet_maimai.py:597-614 | the bind-first message, or the set request for 6 |
| Tickets.GoIsRunSix | plugins/sysallnet_maimai.py:593-630 | `/go` is `/run 6` |
| Tickets.RunTwoExample | plugins/sysallnet_maimai.py:527-582 | `/run 2` sends ticket 2 and replies 绑定2倍跑图卷成功 |
| Tickets.NorunSuccess | plugins/sysallnet_maimai.py:650-679 | POST /web/resetTickets with the caller's header; HTTP 200 replies 取消跑图卷成功 |
| Tickets.HandleNorun | plugins/sysallnet_maimai.py:650-663 | the bind-first message, or POST /web/resetTickets with no body |
| Tickets.NorunAfter | plugins/sysallnet_maimai.py:664-679 | the failure messages, or 取消跑图卷成功 |
| Tickets.HandleGetrun | plugins/sysallnet_maimai.py:704-719 | the bind-first message, or GET /web/currentTickets |
| Tickets.GetrunAfter | plugins/sysallnet_maimai.py:720-745 | the failure messages, the parse error, or `TicketReport` of the body |
| Tickets.TicketReport | plugins/sysallnet_maimai.py:738-745 | a raise for a non-dict body or a truthy non-dict ticket; 当前未启用跑图卷; or 当前跑图卷倍率为 and `_to_int(ticketId)` |
| Tickets.GetrunReport | plugins/sysallnet_maimai.py:738-745 | 当前未启用跑图卷 exactly when isEnable is falsy or ticketId is missing; otherwise the rate is `_to_int(ticketId)` |
| Tickets.GetrunWithoutTicket | plugins/sysallnet_maimai.py:738-744 | a missing or falsy turboTicket reports 当前未启用跑图卷 |
| Tickets.GetrunDisabledExample | plugins/sysallnet_maimai.py:738-744 | a disabled ticket reports 当前未启用跑图卷 |
| Tickets.GetrunEnabledExample | plugins/sysallnet_maimai.py:738-745 | an enabled ticket whose id is the text of n reports 当前跑图卷倍率为n |
| Arcade.RenderPlayers | plugins/sysallnet_maimai.py:858-866 | the player loop builds exactly the lines of its specification: 暂无, or one line per player |
| Arcade.ArcadeCode | plugins/sysallnet_maimai.py:750-778 | the code the trigger captures, or None when the message does not match |
| Arcade.HandleArcadeDetail | plugins/sysallnet_maimai.py:758-804 | no answer without a match; the not-configured text, the admin-bind text, or GET /web/arcadeInfoDetail?arcadeName=<code> |
| Arcade.ArcadeAfter | plugins/sysallnet_maimai.py:805-872 | the failure messages, the parse error, a raise when the report fails, or the joined report |
| Arcade.ArcadeLines | plugins/sysallnet_maimai.py:839-872 | the report lines; None for a non-dict body, a truthy non-dict `arcadeInfo` or a failing player list |
| Arcade.PlayerEntry | plugins/sysallnet_maimai.py:864-866 | `<maimaiName> 上机时间<playdate>` with 未知玩家 and an empty date as fallbacks; None for a non-dict |
| Arcade.ArcadeCodeMatches | plugins/sysallnet_maimai.py:750-754 | the trigger matches exactly a non-empty, space-free code not starting with `/`, followed by `j` and at most one newline, and captures that code |
| Arcade.CodeIsCaptured | plugins/sysallnet_maimai.py:750-754 | a well-formed code followed by `j`, or by `j` and a newline, is captured |
| Arcade.CapturedIsCode | plugins/sysallnet_maimai.py:750-754 | whatever is captured is well formed, and the message is that code, `j` and possibly a newline |
| Arcade.ArcadeCodeExamples | plugins/sysallnet_maimai.py:764-767 | `fsj` asks for `fs`; `/fsj` and `f sj` do not trigger |
| Arcade.ArcadeUsesAdminKey | plugins/sysallnet_maimai.py:780-804 | a request goes out exactly when the admin is configured and bound, with `arcadeName=<code>` and the admin's header |
| Arcade.PlayerLinesShape | plugins/sysallnet_maimai.py:858-866 | an empty list gives 暂无; otherwise one line per player, in order, failing exactly when some entry is not a dict |
| Arcade.ArcadeLayout | plugins/sysallnet_maimai.py:839-872 | the name (falling back to the code), four counts, the player title, the players and the summary, in that order |
| Arcade.ArcadeCounts | plugins/sysallnet_maimai.py:842-853 | the three recent counts of the body and today's count of `arcadeInfo`, each `_to_int(…, 0)` in its line |
| Arcade.EmptyArcade | plugins/sysallnet_maimai.py:839-872 | an empty body names the arcade by its code, shows every counter as 0 and the players as 暂无 |
| Commands.Handle | plugins/sysallnet_maimai.py:150-911 | one message: the outcome of its handler, and the table the bind (if any) leaves |
| Commands.Dispatch | plugins/sysallnet_maimai.py:143-911 | the handler each command fires, with the sender or the administrator as its key holder |
| Commands.Finish | plugins/sysallnet_maimai.py:150-911 | the continuation of the handler that issued the request |
| Commands.KeysAfter | plugins/sysallnet_maimai.py:76-90 | the table after one message: only a bind that got a key back changes it, and only the sender's entry |
| Commands.CommandsAlwaysAnswer | plugins/sysallnet_maimai.py:750-754 | every command fires its handler; only a message that does not match the trigger gets no answer |
| Commands.NoKeyNoRequest | plugins/sysallnet_maimai.py:542-548 | a caller without a key never causes a request; they get the bind-first message, or `/mai`'s usage text when it has no argument |
| Commands.BindSendsNoHeader | plugins/sysallnet_maimai.py:177-183 | `/bind` sends no header |
| Commands.CallerKeyHeader | plugins/sysallnet_maimai.py:106-117 | every request of a per-user command carries exactly the caller's non-empty key |
| Commands.AdminKeyHeader | plugins/sysallnet_maimai.py:784-793 | every request of `/net` or the trigger carries exactly the configured admin's non-empty key |
| Commands.BindDispatch | plugins/sysallnet_maimai.py:165-183 | a bind with an argument sends the exchange for its first word |
| Commands.BindAnswerMatchesTable | plugins/sysallnet_maimai.py:184-224 | 绑定成功！ exactly when the table gains the returned key for the sender; otherwise the table is unchanged |
| Commands.AdminCommandsIgnoreSender | plugins/sysallnet_maimai.py:780-793 | `/net` and the trigger answer the same whoever sends them |
| Commands.OnlyBindWrites | plugins/sysallnet_maimai.py:76-90 | only `/bind` changes the table, and never another QQ's entry |
| Commands.BindThenRun | plugins/sysallnet_maimai.py:542-570 | after a successful bind, the sender's next `/run` goes out under the returned key |

## Left out

- The SQL Server store: the `pyodbc` connection, table creation and SQL
  text are not modelled. The table is a map with the same upsert and lookup
  behaviour. A database error is not modelled.
- A `botKey` that is truthy but not text. The source would hand it to
  the database driver. The model treats it as an uncaught exception and
  stores nothing, because the driver's conversion is outside the plugin.
- The network: `httpx`, the base URL, timeouts, the content of a transport
  error and JSON decoding are inputs. A response is given as a status code,
  a text body and its decoded JSON, or None when it does not decode.
- NoneBot: command registration, priorities, blocking, `finish`
  raising to end a handler, and `extract_plain_text`. A command reaches the
  model as its already extracted argument text.
- `SYSALLNET_ADMIN_QQ` is a string parameter. An unset variable makes
  `os.getenv(...).strip()` raise, and that case is not modelled.
- FmtNumber: JSON numbers are integers only, so a float value is not
  modelled. Numeric text with a fraction, an exponent, underscores or
  non-ASCII decimal digits (such as "１２") is read as non-numeric (so it
  prints as its `str`), where `float()` would accept it. Integer rounding above 2^53, the overflow of huge ints, the
  sign of "-0", and `inf`/`nan` text are modelled.
- ToFloat: text in non-ASCII decimal digits, such as "１２", gives None,
  where `float()` reads it as 12.0; so do a fraction, an exponent and
  underscores.
- TextToFloat: only ASCII digits are read. `float()` first maps every
  Unicode decimal digit to its ASCII value, and that mapping, which needs
  the Unicode digit tables, is not modelled.
- ToInt: a float value is not modelled (JSON numbers are integers only).
  Text with a fraction or an exponent gives the default, as `int()` does.
- `int(str)`: underscores, non-ASCII digits and the 4300-digit limit are
  not modelled.
- `repr` of dicts and lists (used when an error body has no message) does
  not reproduce Python's escaping of quotes and control characters. A
  key bound twice shows once, with its last value, as `json.loads` keeps it.
- `/net` on an empty list sends an empty message. This is modelled as the
  empty join, and NoneBot's handling of it is not modelled.
- `/net` calls `raise_for_status` and does not catch transport errors.
  The model reports a transport error, a non-2xx status and an undecodable
  body as an uncaught exception, as the code does. It does not report them
  as friendly error replies.
- The trigger uses Python `re` semantics: `$` also matches just before a
  final newline, so `fsj\n` triggers with code `fs`. The model follows the
  code here.

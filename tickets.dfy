/** The ticket-multiplier commands: `/run X`, `/go`, `/norun` and `/getrun`. */
module Tickets {
  import opened Wrappers
  import opened PyText
  import opened JsonValue
  import opened Credentials
  import opened Api

  const RunUsage: string := "用法：/run X\n例如：/run 2 或 /run 3"
  const RunNotInteger: string := "跑图卷倍率必须是整数，例如 /run 2。"
  const SetPath: string := "/web/setTickets"
  const ResetPath: string := "/web/resetTickets"
  const CurrentPath: string := "/web/currentTickets"
  const NotEnabled: string := "当前未启用跑图卷"
  const RatePrefix: string := "当前跑图卷倍率为"

  /** `POST /web/setTickets {"ticketId": X}` with the caller's header. */
  function SetRequest(ticket: int, headers: map<string, string>): Request {
    Request(POST, SetPath, [], Some(JObj([("ticketId", JInt(ticket))])), headers)
  }

  /** The reply once the set request went out: its failure message, or the confirmation. */
  function SetAfter(ticket: int, resp: Response): After {
    match Failure(resp, "设置跑图卷失败", SetPath, "")
    case Some(msg) => Say(msg)
    case None => Say("绑定" + IntText(ticket) + "倍跑图卷成功")
  }

  /** `handle_run`: the bind check, then the argument, then the request. */
  function HandleRun(keys: map<string, string>, qq: string, args: string): Outcome {
    var headers := AuthHeaders(keys, qq);
    if headers == map[] then Reply(NotBound("无法设置跑图卷。"))
    else
      var text := Strip(args);
      if text == "" then Reply(RunUsage)
      else
        StripEmpty(args);
        match ParseInt(FirstWord(text))
        case None => Reply(RunNotInteger)
        case Some(ticket) => Call(SetRequest(ticket, headers), SetEnding(ticket))
  }

  /** `handle_go`: the same request with the multiplier fixed at 6. */
  function HandleGo(keys: map<string, string>, qq: string): Outcome {
    var headers := AuthHeaders(keys, qq);
    if headers == map[] then Reply(NotBound("无法设置跑图卷。"))
    else Call(SetRequest(6, headers), SetEnding(6))
  }

  function NorunAfter(resp: Response): After {
    match Failure(resp, "取消跑图卷失败", ResetPath, "")
    case Some(msg) => Say(msg)
    case None => Say("取消跑图卷成功")
  }

  /** `handle_norun`: `POST /web/resetTickets` without a body. */
  function HandleNorun(keys: map<string, string>, qq: string): Outcome {
    var headers := AuthHeaders(keys, qq);
    if headers == map[] then Reply(NotBound("无法取消跑图卷。"))
    else Call(Request(POST, ResetPath, [], None, headers), NorunEnding)
  }

  /** The reply `/getrun` gives for a decoded 200 body. */
  function TicketReport(data: Json): After {
    if !data.JObj? then Crash
    else
      var ticket := Or(Get(data.fields, "turboTicket"), JObj([]));
      if !ticket.JObj? then Crash
      else
        var enabled := Get(ticket.fields, "isEnable");
        var id := Get(ticket.fields, "ticketId");
        if !Truthy(enabled) || id == JNull then Say(NotEnabled)
        else Say(RatePrefix + IntText(ToInt(id, 0)))
  }

  function GetrunAfter(resp: Response): After {
    match Failure(resp, "获取跑图卷信息失败", CurrentPath, "")
    case Some(msg) => Say(msg)
    case None =>
      match resp.body.json
      case None => Say("解析跑图卷信息返回内容失败。")
      case Some(data) => TicketReport(data)
  }

  /** `handle_getrun`: `GET /web/currentTickets`, then report the multiplier. */
  function HandleGetrun(keys: map<string, string>, qq: string): Outcome {
    var headers := AuthHeaders(keys, qq);
    if headers == map[] then Reply(NotBound("无法查看跑图卷。"))
    else Call(Request(GET, CurrentPath, [], None, headers), GetrunEnding)
  }

  // ---------------------------------------------------------------- properties

  /** `/run` with no argument gives the usage text, and with a first word that is
      not an integer the integer error; neither sends a request. */
  lemma RunRejectsBadArgument(keys: map<string, string>, qq: string, args: string)
    requires AuthHeaders(keys, qq) != map[]
    ensures AllSpace(args) ==> HandleRun(keys, qq, args) == Reply(RunUsage)
    ensures !AllSpace(args) && ParseInt(FirstWord(Strip(args))).None? ==>
      HandleRun(keys, qq, args) == Reply(RunNotInteger)
  {
    StripEmpty(args);
  }

  /** `/run X` with an integer X sends `{"ticketId": X}` under the caller's header,
      and on a 200 says exactly "绑定X倍跑图卷成功", with X written in decimal. */
  lemma RunSendsTicket(keys: map<string, string>, qq: string, args: string, body: Body)
    requires AuthHeaders(keys, qq) != map[] && !AllSpace(args)
    requires ParseInt(FirstWord(Strip(args))).Some?
    ensures var x := ParseInt(FirstWord(Strip(args))).value;
      && HandleRun(keys, qq, args).Call?
      && HandleRun(keys, qq, args).req.body == Some(JObj([("ticketId", JInt(x))]))
      && HandleRun(keys, qq, args).req.headers == map["Authorization" := "BotKey " + keys[qq]]
      && HandleRun(keys, qq, args).ending == SetEnding(x)
      && SetAfter(x, Http(200, body)) == Say("绑定" + IntText(x) + "倍跑图卷成功")
  {
    StripEmpty(args);
  }

  /** The bind check comes before the argument: without a key every `/run` gets
      the bind-first message, whatever its argument. */
  lemma RunChecksBindFirst(keys: map<string, string>, qq: string, args: string)
    requires AuthHeaders(keys, qq) == map[]
    ensures HandleRun(keys, qq, args) == Reply(NotBound("无法设置跑图卷。"))
  {
  }

  /** `/go` is `/run 6`, on every store. */
  lemma GoIsRunSix(keys: map<string, string>, qq: string)
    ensures HandleGo(keys, qq) == HandleRun(keys, qq, "6")
  {
    assert "6" == [DigitChar(6)];
    StripNoSpace("6");
    assert FirstWord("6") == "6" by {
      SplitFirst("6");
      assert WordLength("6") == 1;
    }
    assert ParseInt("6") == Some(6) by {
      ParseIntText(6);
    }
  }

  /** The example: `/run 2` sends `{"ticketId": 2}` and on a 200 says "绑定2倍跑图卷成功". */
  lemma RunTwoExample(keys: map<string, string>, qq: string, body: Body)
    requires qq in keys && keys[qq] != ""
    ensures HandleRun(keys, qq, "2") == Call(SetRequest(2, map["Authorization" := "BotKey " + keys[qq]]), SetEnding(2))
    ensures SetAfter(2, Http(200, body)) == Say("绑定2倍跑图卷成功")
  {
    assert "2" == [DigitChar(2)];
    StripNoSpace("2");
    assert FirstWord("2") == "2" by {
      SplitFirst("2");
      assert WordLength("2") == 1;
    }
    assert ParseInt("2") == Some(2) by {
      ParseIntText(2);
    }
    assert IntText(2) == "2";
    assert SetAfter(2, Http(200, body)) == Say("绑定2倍跑图卷成功");
    assert AuthHeaders(keys, qq) == map["Authorization" := "BotKey " + keys[qq]];
  }

  /** `/norun` sends a bodiless reset under the caller's header, and on a 200
      says exactly "取消跑图卷成功". */
  lemma NorunSuccess(keys: map<string, string>, qq: string, body: Body)
    requires AuthHeaders(keys, qq) != map[]
    ensures HandleNorun(keys, qq) == Call(Request(POST, ResetPath, [], None, AuthHeaders(keys, qq)), NorunEnding)
    ensures NorunAfter(Http(200, body)) == Say("取消跑图卷成功")
  {
  }

  /** `/getrun` reports "当前未启用跑图卷" exactly when the flag is falsy or the id
      is missing, and otherwise the id as `_to_int` reads it. */
  lemma GetrunReport(fields: seq<(string, Json)>, ticket: seq<(string, Json)>)
    requires Get(fields, "turboTicket") == JObj(ticket) && ticket != []
    ensures var data := JObj(fields);
      var enabled := Get(ticket, "isEnable");
      var id := Get(ticket, "ticketId");
      && (!Truthy(enabled) || id == JNull <==> TicketReport(data) == Say(NotEnabled))
      && (Truthy(enabled) && id != JNull ==> TicketReport(data) == Say(RatePrefix + IntText(ToInt(id, 0))))
  {
    var enabled := Get(ticket, "isEnable");
    var id := Get(ticket, "ticketId");
    if Truthy(enabled) && id != JNull {
      var t := IntText(ToInt(id, 0));
      assert (RatePrefix + t)[..8] == RatePrefix;
      assert |RatePrefix + t| > |NotEnabled|;
    }
  }

  /** A body without `turboTicket`, or with a falsy one, reports "当前未启用跑图卷". */
  lemma GetrunWithoutTicket(fields: seq<(string, Json)>)
    requires !Truthy(Get(fields, "turboTicket"))
    ensures TicketReport(JObj(fields)) == Say(NotEnabled)
  {
  }

  /** The example `{"isEnable": false}`: not enabled. */
  lemma GetrunDisabledExample()
    ensures TicketReport(JObj([("turboTicket", JObj([("isEnable", JBool(false))]))])) == Say(NotEnabled)
  {
  }

  /** The example `{"isEnable": true, "ticketId": "3"}`, for any id written as
      decimal text: the reply is "当前跑图卷倍率为" and that id. */
  lemma GetrunEnabledExample(n: int)
    ensures TicketReport(JObj([("turboTicket", JObj([("isEnable", JBool(true)), ("ticketId", JStr(IntText(n)))]))]))
      == Say(RatePrefix + IntText(n))
  {
    var ticket := [("isEnable", JBool(true)), ("ticketId", JStr(IntText(n)))];
    assert Get(ticket, "isEnable") == JBool(true) by {
      assert "ticketId"[0] != "isEnable"[0];
      assert ticket[..1] == [("isEnable", JBool(true))];
    }
    GetrunReport([("turboTicket", JObj(ticket))], ticket);
    ToIntOfText(n, 0);
  }
}

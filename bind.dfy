/** `/bind <botToken>`: exchange a bot token for a BotKey and store it for the caller's QQ. */
module Bind {
  import opened Wrappers
  import opened PyText
  import opened JsonValue
  import opened Credentials
  import opened Api

  const BindPath: string := "/bot/bind"
  const BotName: string := "yibot"
  const BindUsage: string :=
    "用法：/bind <你的 botToken>\n机器人会调用 /bot/bind 获取专属 BotKey 并与当前 QQ 绑定。\n注意：你只需要提供 botToken，不需要也拿不到 botKey。"
  const TransportPrefix: string := "请求 /bot/bind 失败"
  const BindHint: string := "\n请确认 botToken 是否正确。"
  const BindParseError: string := "解析 /bot/bind 返回内容失败，请稍后重试。"
  const BindFailed: string := "绑定失败："
  const NoBotKey: string := BindFailed + "未在返回中找到 botKey 字段。\n可能是 botToken 无效或服务器异常，请检查后重试。"
  const BindDone: string := "绑定成功！"

  /** `POST /bot/bind {"botToken": token, "botName": "yibot"}`, sent without an
      authorization header. */
  function BindRequest(token: string): Request {
    Request(POST, BindPath, [], Some(JObj([("botToken", JStr(token)), ("botName", JStr(BotName))])), map[])
  }

  /** The confirmation: 绑定成功！, the bot id when there is one, and the fixed
      explanation of the header now in use. */
  function BindReply(botId: Json): string {
    Join([BindDone]
      + (if Truthy(botId) then ["你的 botId：" + PyStr(botId)] else [])
      + ["已为当前 QQ 绑定专属 BotKey。", "后续所有查询与操作都会使用：", "Authorization: BotKey <你的botKey>"])
  }

  /** The key `set_user_bot_key` receives for a response: the `botKey` of a
      200 dict, when it is non-empty text. A key that is not text is not
      stored (the handler raises instead). */
  function ReturnedKey(resp: Response): Option<string> {
    if !(resp.Http? && resp.status == 200) then None
    else match resp.body.json
      case Some(JObj(fs)) =>
        (match Get(fs, "botKey")
         case JStr(k) => if k != "" then Some(k) else None
         case _ => None)
      case _ => None
  }

  /** How `handle_bind` ends once its request went out. A body that is not a
      dict raises on `.get`. */
  function BindAfter(resp: Response): After {
    match Failure(resp, TransportPrefix, BindPath, BindHint)
    case Some(msg) => Say(msg)
    case None =>
      match resp.body.json
      case None => Say(BindParseError)
      case Some(data) =>
        if !data.JObj? then Crash
        else
          var key := Get(data.fields, "botKey");
          if !Truthy(key) then Say(NoBotKey)
          else if !key.JStr? then Crash
          else Say(BindReply(Get(data.fields, "botId")))
  }

  /** `handle_bind`: the usage text for an empty argument, otherwise the bind
      request for its first word. */
  function HandleBind(args: string): Outcome {
    var text := Strip(args);
    if text == "" then Reply(BindUsage)
    else
      StripEmpty(args);
      Call(BindRequest(FirstWord(text)), BindEnding)
  }

  /** `handle_bind` against the table, once the exchange answered `resp`: the
      caller's entry is overwritten with the returned key, and nothing else changes. */
  method Bind(store: CredentialStore, qq: string, args: string, resp: Response) returns (o: Outcome)
    modifies store
    ensures o == HandleBind(args)
    ensures o.Call? && ReturnedKey(resp).Some? ==> store.keys == old(store.keys)[qq := ReturnedKey(resp).value]
    ensures !(o.Call? && ReturnedKey(resp).Some?) ==> store.keys == old(store.keys)
  {
    o := HandleBind(args);
    var key := ReturnedKey(resp);
    if o.Call? && key.Some? {
      store.Set(qq, key.value);
    }
  }

  // ---------------------------------------------------------------- properties

  /** A key is stored exactly when the exchange answered 200 with a dict whose
      `botKey` is non-empty text, and that text is what is stored. */
  lemma BindStoresOnlyOnSuccess(resp: Response)
    ensures ReturnedKey(resp).Some? <==>
      && resp.Http? && resp.status == 200
      && resp.body.json.Some? && resp.body.json.value.JObj?
      && Get(resp.body.json.value.fields, "botKey").JStr?
      && Get(resp.body.json.value.fields, "botKey").s != ""
    ensures ReturnedKey(resp).Some? ==> ReturnedKey(resp).value == Get(resp.body.json.value.fields, "botKey").s
  {
  }

  /** A text that begins with 绑定成功！. */
  predicate IsConfirmation(a: After) {
    a.Say? && StartsWith(a.text, BindDone)
  }

  /** A failure message never begins with 绑定成功！: it begins with the
      transport prefix or with the path. */
  lemma FailureIsNotSuccess(resp: Response)
    requires Failure(resp, TransportPrefix, BindPath, BindHint).Some?
    ensures !StartsWith(Failure(resp, TransportPrefix, BindPath, BindHint).value, BindDone)
  {
    if resp.TransportError? {
      TransportNotSuccess(resp.cause);
    } else {
      StatusNotSuccess(resp.status, resp.body);
    }
  }

  lemma TransportNotSuccess(cause: string)
    ensures !StartsWith(TransportPrefix + "：" + cause, BindDone)
  {
    var msg := TransportPrefix + "：" + cause;
    assert msg[0] == TransportPrefix[0];
    FirstCharDiffers(msg, BindDone);
  }

  lemma StatusNotSuccess(status: int, body: Body)
    ensures !StartsWith(BindPath + " 返回异常（HTTP " + IntText(status) + "）：" + ErrorMessage(body) + BindHint, BindDone)
  {
    var rest := " 返回异常（HTTP " + IntText(status) + "）：" + ErrorMessage(body) + BindHint;
    var msg := BindPath + " 返回异常（HTTP " + IntText(status) + "）：" + ErrorMessage(body) + BindHint;
    assert msg == BindPath + rest;
    assert msg[0] == BindPath[0];
    FirstCharDiffers(msg, BindDone);
  }

  /** The reply is the confirmation exactly when a key is stored: every other
      ending is a failure message (or no reply at all). */
  lemma BindConfirmsIffStored(resp: Response)
    ensures IsConfirmation(BindAfter(resp)) <==> ReturnedKey(resp).Some?
  {
    if Failure(resp, TransportPrefix, BindPath, BindHint).Some? {
      FailureIsNotSuccess(resp);
    } else {
      match resp.body.json
      case None =>
        FirstCharDiffers(BindParseError, BindDone);
      case Some(data) =>
        if data.JObj? {
          var key := Get(data.fields, "botKey");
          if !Truthy(key) {
            assert NoBotKey[2] == BindFailed[2] != BindDone[2];
          } else if key.JStr? {
            BindReplyStartsWithSuccess(Get(data.fields, "botId"));
          }
        }
    }
  }

  /** The exchange sends the first word as `botToken`, the fixed bot name, and
      no header; an empty argument gets the usage text and sends nothing. */
  lemma BindSendsToken(args: string)
    ensures AllSpace(args) ==> HandleBind(args) == Reply(BindUsage)
    ensures !AllSpace(args) ==>
      && HandleBind(args).Call?
      && HandleBind(args).req == Request(POST, BindPath, [],
           Some(JObj([("botToken", JStr(FirstWord(Strip(args)))), ("botName", JStr("yibot"))])), map[])
  {
    StripEmpty(args);
  }

  /** A failed exchange reports why: the transport error, or the HTTP status
      followed by the botToken hint. */
  lemma BindFailureMessages(resp: Response)
    ensures resp.TransportError? ==> BindAfter(resp) == Say(TransportPrefix + "：" + resp.cause)
    ensures resp.Http? && resp.status != 200 ==>
      && BindAfter(resp).Say?
      && var t := BindAfter(resp).text;
         |t| >= |BindHint| && t[|t| - |BindHint|..] == BindHint
  {
  }

  /** The confirmation begins with 绑定成功！, with or without a bot id. */
  lemma BindReplyStartsWithSuccess(botId: Json)
    ensures StartsWith(BindReply(botId), BindDone)
  {
    var lines := [BindDone]
      + (if Truthy(botId) then ["你的 botId：" + PyStr(botId)] else [])
      + ["已为当前 QQ 绑定专属 BotKey。", "后续所有查询与操作都会使用：", "Authorization: BotKey <你的botKey>"];
    assert lines[0] == BindDone;
    JoinWithHead("\n", lines);
  }

  /** After a successful bind the caller's header carries the new key. */
  method BindThenHeader(store: CredentialStore, qq: string, args: string, resp: Response) returns (headers: map<string, string>)
    modifies store
    requires !AllSpace(args) && ReturnedKey(resp).Some?
    ensures headers == map["Authorization" := "BotKey " + ReturnedKey(resp).value]
  {
    BindSendsToken(args);
    var _ := Bind(store, qq, args, resp);
    headers := AuthHeaders(store.keys, qq);
  }
}

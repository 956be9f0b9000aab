/** The natural-language trigger `<机厅代号>j`: the detail report of one arcade,
    queried with the administrator's key. */
module Arcade {
  import opened Wrappers
  import opened PyText
  import opened JsonValue
  import opened Credentials
  import opened Api

  const DetailPath: string := "/web/arcadeInfoDetail"
  const DetailParseError: string := "解析机厅详情返回内容失败。"
  const PlayersTitle: string := "当前店内玩家列表："
  const NoPlayers: string := "暂无"

  /** The trigger `^(?!/)(\S+)j$`, searched in the plain text of a message:
      the arcade code it captures, or None when the message does not match.
      `$` also matches just before a final newline. */
  function ArcadeCode(text: string): Option<string> {
    if |text| >= 2 && text[|text| - 1] == 'j' && text[0] != '/' && NoSpace(text[..|text| - 1]) then
      Some(text[..|text| - 1])
    else if |text| >= 3 && text[|text| - 2..] == "j\n" && text[0] != '/' && NoSpace(text[..|text| - 2]) then
      Some(text[..|text| - 2])
    else None
  }

  // ---------------------------------------------------------------- the report

  /** `_to_int(v, 0)` in decimal, as the counters are shown. */
  function Count(v: Json): string {
    IntText(ToInt(v, 0))
  }

  /** One player line: `"<maimaiName> 上机时间<playdate>"`, with 未知玩家 and an
      empty date as fallbacks; None when the entry is not a dict. The position
      is not shown. */
  function PlayerEntry(index: int, player: Json): Option<string> {
    if !player.JObj? then None
    else
      var f := player.fields;
      Some(PyStr(Or(Get(f, "maimaiName"), JStr("未知玩家"))) + " 上机时间" + PyStr(Or(Get(f, "playdate"), JStr(""))))
  }

  /** The lines under the player-list title: 暂无 for a falsy list, otherwise
      one line per player. A truthy value that is not a list iterates into
      strings (or not at all), and `.get` then raises. */
  function PlayerLines(players: Json): Option<seq<string>> {
    if !Truthy(players) then Some([NoPlayers])
    else match players
      case JArr(xs) => Numbered(xs, 1, PlayerEntry)
      case _ => None
  }

  /** The player list of `handle_arcade_detail`: 暂无, or the loop over `playerList`. */
  method RenderPlayers(players: Json) returns (r: Option<seq<string>>)
    ensures r == PlayerLines(players)
  {
    if !Truthy(players) {
      return Some([NoPlayers]);
    }
    if !players.JArr? {
      return None;
    }
    r := RenderNumbered(players.items, 1, PlayerEntry);
  }

  /** The five lines before the player list: the arcade's name (the code when
      it has none), the three recent play counts and today's count. */
  function CountLines(code: string, d: seq<(string, Json)>, info: seq<(string, Json)>): seq<string> {
    [PyStr(Or(Get(info, "arcadeName"), JStr(code))),
     "30分钟内共游玩了" + Count(Get(d, "thirtyMinutesPlayer")) + "PC",
     "一小时内共游玩了" + Count(Get(d, "oneHourPlayer")) + "PC",
     "两小时内共游玩了" + Count(Get(d, "twoHoursPlayer")) + "PC",
     "今日店内共" + Count(Get(info, "arcadePlayCount")) + "PC"]
  }

  /** The closing network-summary line. */
  function SummaryLine(info: seq<(string, Json)>): string {
    "网络概况：今日网络请求" + Count(Get(info, "arcadeRequested"))
      + "次中，缓存命中" + Count(Get(info, "arcadeCachedRequest"))
      + "次，错误修复次数" + Count(Get(info, "arcadeFixedRequest")) + "次。"
  }

  /** The lines of the report for a decoded 200 body, or None when building it
      raises: the body is not a dict, `arcadeInfo` is truthy but not a dict, or
      the player list fails. */
  function ArcadeLines(code: string, data: Json): Option<seq<string>> {
    if !data.JObj? then None
    else
      var d := data.fields;
      var info := Or(Get(d, "arcadeInfo"), JObj([]));
      if !info.JObj? then None
      else
        match PlayerLines(Get(d, "playerList"))
        case None => None
        case Some(players) =>
          Some(CountLines(code, d, info.fields) + [PlayersTitle] + players + [SummaryLine(info.fields)])
  }

  function ArcadeAfter(code: string, resp: Response): After {
    match Failure(resp, "请求 /web/arcadeInfoDetail 失败", DetailPath, "")
    case Some(msg) => Say(msg)
    case None =>
      match resp.body.json
      case None => Say(DetailParseError)
      case Some(data) =>
        match ArcadeLines(code, data)
        case None => Crash
        case Some(lines) => Say(Join(lines))
  }

  /** `handle_arcade_detail` for a message `text`: None when the trigger does
      not match; otherwise the administrator checks, then
      `GET /web/arcadeInfoDetail?arcadeName=<code>` with the administrator's
      header, whoever sent the message. */
  function HandleArcadeDetail(keys: map<string, string>, adminConfig: string, text: string): Option<Outcome> {
    match ArcadeCode(text)
    case None => None
    case Some(code) =>
      var admin := Strip(adminConfig);
      if admin == "" then Some(Reply(AdminMissing))
      else
        var headers := AuthHeaders(keys, admin);
        if headers == map[] then Some(Reply(AdminNotBound("无法查询机厅详情。")))
        else Some(Call(Request(GET, DetailPath, [("arcadeName", code)], None, headers), ArcadeEnding(code)))
  }

  // ---------------------------------------------------------------- properties

  /** The trigger matches exactly the messages that are a code of non-space
      characters not starting with '/', followed by "j" and at most one newline;
      the code is everything before that "j". */
  lemma ArcadeCodeMatches(text: string, code: string)
    ensures ArcadeCode(text) == Some(code) <==>
      && code != [] && NoSpace(code) && code[0] != '/'
      && (text == code + "j" || text == code + "j\n")
  {
    if code != [] && NoSpace(code) && code[0] != '/' {
      CodeIsCaptured(code);
    }
    if ArcadeCode(text) == Some(code) {
      CapturedIsCode(text);
    }
  }

  /** A well-formed code followed by "j", and possibly a newline, is captured. */
  lemma CodeIsCaptured(code: string)
    requires code != [] && NoSpace(code) && code[0] != '/'
    ensures ArcadeCode(code + "j") == Some(code)
    ensures ArcadeCode(code + "j\n") == Some(code)
  {
    var t1 := code + "j";
    assert t1[..|t1| - 1] == code;
    var t2 := code + "j\n";
    assert t2[..|t2| - 2] == code;
    assert t2[|t2| - 2..] == "j\n";
    assert t2[|t2| - 1] != 'j';
  }

  /** What the trigger captures is a well-formed code, and the message is that
      code, "j" and possibly a newline. */
  lemma CapturedIsCode(text: string)
    requires ArcadeCode(text).Some?
    ensures var code := ArcadeCode(text).value;
      && code != [] && NoSpace(code) && code[0] != '/'
      && (text == code + "j" || text == code + "j\n")
  {
    if text[|text| - 1] == 'j' && NoSpace(text[..|text| - 1]) {
      assert text == text[..|text| - 1] + "j";
    } else {
      assert text == text[..|text| - 2] + text[|text| - 2..];
    }
  }

  /** `fsj` asks for `fs`; a command such as `/fsj` and a message with a space do not trigger. */
  lemma ArcadeCodeExamples()
    ensures ArcadeCode("fsj") == Some("fs")
    ensures ArcadeCode("/fsj") == None
    ensures ArcadeCode("f sj") == None
  {
    assert "fsj"[..2] == "fs";
    assert IsSpace("f sj"[1]);
    assert !NoSpace("f sj"[..3]);
  }

  /** The request goes out under the administrator's key only when the
      administrator is configured and bound, and it asks for the captured code. */
  lemma ArcadeUsesAdminKey(keys: map<string, string>, adminConfig: string, text: string)
    requires ArcadeCode(text).Some?
    ensures var o := HandleArcadeDetail(keys, adminConfig, text);
      && o.Some?
      && (Strip(adminConfig) == "" ==> o.value == Reply(AdminMissing))
      && (o.value.Call? <==> Strip(adminConfig) != "" && AuthHeaders(keys, Strip(adminConfig)) != map[])
      && (o.value.Call? ==>
           && o.value.req.query == [("arcadeName", ArcadeCode(text).value)]
           && o.value.req.headers == map["Authorization" := "BotKey " + keys[Strip(adminConfig)]]
           && o.value.ending == ArcadeEnding(ArcadeCode(text).value))
  {
  }

  /** The player list shows 暂无 when empty, and otherwise every player, in
      order; it fails exactly when some entry is not a dict. */
  lemma PlayerLinesShape(xs: seq<Json>)
    ensures PlayerLines(JArr([])) == Some([NoPlayers])
    ensures xs != [] ==> (PlayerLines(JArr(xs)).Some? <==> forall k :: 0 <= k < |xs| ==> xs[k].JObj?)
    ensures xs != [] && PlayerLines(JArr(xs)).Some? ==>
      var lines := PlayerLines(JArr(xs)).value;
      |lines| == |xs| && forall k :: 0 <= k < |xs| ==> Some(lines[k]) == PlayerEntry(k + 1, xs[k])
  {
    NumberedLines(xs, 1, PlayerEntry);
  }

  /** The report is the name and the four counts, the player-list title, the
      player lines, and the summary, in that order. */
  lemma ArcadeLayout(code: string, d: seq<(string, Json)>)
    requires ArcadeLines(code, JObj(d)).Some?
    ensures var lines := ArcadeLines(code, JObj(d)).value;
      var info := Or(Get(d, "arcadeInfo"), JObj([])).fields;
      var players := PlayerLines(Get(d, "playerList")).value;
      && |lines| == 7 + |players|
      && lines[0] == PyStr(Or(Get(info, "arcadeName"), JStr(code)))
      && lines[5] == PlayersTitle
      && lines[6..6 + |players|] == players
      && lines[6 + |players|] == SummaryLine(info)
  {
    var info := Or(Get(d, "arcadeInfo"), JObj([])).fields;
    var counts := CountLines(code, d, info);
    var players := PlayerLines(Get(d, "playerList")).value;
    var lines := counts + [PlayersTitle] + players + [SummaryLine(info)];
    assert ArcadeLines(code, JObj(d)).value == lines;
    assert lines[6..6 + |players|] == players;
  }

  /** The four counters of the report, each `_to_int(…, 0)` of its field: the
      three recent ones from the body, today's from `arcadeInfo`. */
  lemma ArcadeCounts(code: string, d: seq<(string, Json)>)
    requires ArcadeLines(code, JObj(d)).Some?
    ensures var lines := ArcadeLines(code, JObj(d)).value;
      var info := Or(Get(d, "arcadeInfo"), JObj([])).fields;
      && |lines| >= 5
      && lines[1] == "30分钟内共游玩了" + IntText(ToInt(Get(d, "thirtyMinutesPlayer"), 0)) + "PC"
      && lines[2] == "一小时内共游玩了" + IntText(ToInt(Get(d, "oneHourPlayer"), 0)) + "PC"
      && lines[3] == "两小时内共游玩了" + IntText(ToInt(Get(d, "twoHoursPlayer"), 0)) + "PC"
      && lines[4] == "今日店内共" + IntText(ToInt(Get(info, "arcadePlayCount"), 0)) + "PC"
  {
    var info := Or(Get(d, "arcadeInfo"), JObj([])).fields;
    var counts := CountLines(code, d, info);
    var players := PlayerLines(Get(d, "playerList")).value;
    assert ArcadeLines(code, JObj(d)).value == counts + [PlayersTitle] + players + [SummaryLine(info)];
  }

  /** An empty body reports the code itself as the name and every count as 0. */
  lemma EmptyArcade(code: string)
    ensures ArcadeLines(code, JObj([])) == Some([
      code, "30分钟内共游玩了0PC", "一小时内共游玩了0PC", "两小时内共游玩了0PC", "今日店内共0PC",
      PlayersTitle, NoPlayers, "网络概况：今日网络请求0次中，缓存命中0次，错误修复次数0次。"])
  {
    assert Count(JNull) == "0" by {
      assert NatText(0) == [DigitChar(0)];
    }
    assert "30分钟内共游玩了" + "0" + "PC" == "30分钟内共游玩了0PC";
    assert "一小时内共游玩了" + "0" + "PC" == "一小时内共游玩了0PC";
    assert "两小时内共游玩了" + "0" + "PC" == "两小时内共游玩了0PC";
    assert "今日店内共" + "0" + "PC" == "今日店内共0PC";
    assert SummaryLine([]) == "网络概况：今日网络请求0次中，缓存命中0次，错误修复次数0次。" by {
      assert "网络概况：今日网络请求" + "0" + "次中，缓存命中" + "0" + "次，错误修复次数" + "0" + "次。"
        == "网络概况：今日网络请求0次中，缓存命中0次，错误修复次数0次。";
    }
    var counts := CountLines(code, [], []);
    assert ArcadeLines(code, JObj([])) == Some(counts + [PlayersTitle] + [NoPlayers] + [SummaryLine([])]);
    assert counts + [PlayersTitle] + [NoPlayers] + [SummaryLine([])]
      == [counts[0], counts[1], counts[2], counts[3], counts[4], PlayersTitle, NoPlayers, SummaryLine([])];
  }
}

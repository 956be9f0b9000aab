/** `/mai <TurboNET用户名>`: the profile report of one TurboNET user. */
module Profile {
  import opened Wrappers
  import opened PyText
  import opened JsonValue
  import opened Credentials
  import opened Api

  const UserPath: string := "/web/user"
  const MaiUsage: string := "用法：/mai <TurboNET用户名>\n例如：/mai AAA_BBB"
  const MaiParseError: string := "解析 /web/user 返回内容失败，请稍后再试。"
  const StatsTitle: string := "=== 综合数据 ==="
  const PlayTitle: string := "=== 游玩情况 ==="
  const BestTitle: string := "=== Best 35 Top 3 ==="
  const RecentTitle: string := "=== 最近游玩 Top 3 ==="
  const UnknownSong: string := "未知曲目"
  /** How many songs each song section shows at most. */
  const SongCap: nat := 3

  /** The line `line` when `shown` holds, nothing otherwise. */
  function When(shown: bool, line: string): seq<string> {
    if shown then [line] else []
  }

  // ---------------------------------------------------------------- blocks of the report

  /** The identity block: user name (falling back to the name asked for),
      maimai name, then the optional QQ, self, permission, warning and ban lines. */
  function IdentityLines(d: seq<(string, Json)>, turboName: string): seq<string> {
    var qq := Get(d, "qqNumber");
    var isMe := Get(d, "isMe");
    var permission := Get(d, "permission");
    var warnings := Get(d, "warningTimes");
    var warning := Get(d, "warningMessage");
    var banned := Get(d, "bannedMessage");
    ["TurboNET 用户：" + PyStr(Or(Get(d, "turboName"), JStr(turboName))),
     "maimai 名称：" + PyStr(Or(Get(d, "maimaiName"), JStr("（未设置）")))]
    + When(Truthy(qq), "绑定 QQ：" + PyStr(qq))
    + When(isMe != JNull, "是否本人：" + (if Truthy(isMe) then "是" else "否"))
    + When(Truthy(permission), "权限等级：" + PyStr(permission))
    + When(Truthy(warnings), "警告次数：" + PyStr(warnings))
    + When(Truthy(warning), "最近警告：" + PyStr(warning))
    + When(Truthy(Get(d, "isBanned")), "封禁状态：已封禁（" + PyStr(Or(banned, JStr("无说明"))) + "）")
  }

  /** The statistics block of `maiStatistics`: DX Rating always, then each
      figure that is not None. */
  function StatsLines(s: seq<(string, Json)>): seq<string> {
    var rank := Get(s, "serverRanking");
    var acc := Get(s, "averageAccuracy");
    var combo := Get(s, "maxCombo");
    var fc := Get(s, "fullCombo");
    var ap := Get(s, "allPerfect");
    var total := Get(s, "totalScores");
    ["", StatsTitle, "DX Rating：" + FmtNumber(Get(s, "deluxRating"), 0, "")]
    + When(rank != JNull, "服务器排名：#" + PyStr(rank))
    + When(acc != JNull, "平均达成率：" + FmtNumber(acc, 2, "%"))
    + When(combo != JNull, "历史最大连击：" + PyStr(combo))
    + When(fc != JNull, "Full Combo 数：" + PyStr(fc))
    + When(ap != JNull, "All Perfect 数：" + PyStr(ap))
    + When(total != JNull, "总成绩数：" + PyStr(total))
  }

  /** The play block of `playActivity`; the last play carries its version when
      one is given. */
  function PlayLines(p: seq<(string, Json)>): seq<string> {
    var count := Get(p, "playCount");
    var time := Get(p, "playTime");
    var first := Get(p, "firstPlay");
    var last := Get(p, "lastPlay");
    var version := Get(p, "playVersion");
    ["", PlayTitle]
    + When(count != JNull, "总游玩次数：" + PyStr(count))
    + When(time != JNull, "总游玩时长：" + FmtNumber(time, 1, "") + " 小时")
    + When(Truthy(first), "首次游玩：" + PyStr(first))
    + When(Truthy(last),
        "最近游玩：" + PyStr(last) + (if Truthy(version) then "（版本：" + PyStr(version) + "）" else ""))
  }

  // ---------------------------------------------------------------- song lines

  /** `"<i>. <name>"`: how every song line begins. */
  function SongTitle(i: int, song: seq<(string, Json)>): string {
    IntText(i) + ". " + PyStr(Or(Get(song, "musicName"), JStr(UnknownSong)))
  }

  /** `" ".join(head_parts)`: the title, the level in brackets and, for a best
      score, the difficulty. */
  function SongHead(i: int, song: seq<(string, Json)>, withDiff: bool): string {
    JoinWith(" ", [SongTitle(i, song)] + HeadExtras(song, withDiff))
  }

  /** The head parts after the title. */
  function HeadExtras(song: seq<(string, Json)>, withDiff: bool): seq<string> {
    var level := Get(song, "level");
    var diff := Get(song, "diff");
    When(level != JNull, "[" + FmtNumber(level, 1, "") + "]")
    + When(withDiff && diff != JNull, "(Diff " + PyStr(diff) + ")")
  }

  /** The head, then `" | "` and the extra parts joined by `" / "` when there are any. */
  function Detail(head: string, extra: seq<string>): string {
    if extra == [] then head else head + " | " + JoinWith(" / ", extra)
  }

  /** One line of the Best 35 section; None when the entry is not a dict. */
  function BestEntry(i: int, song: Json): Option<string> {
    if !song.JObj? then None
    else
      var f := song.fields;
      var achv := Get(f, "achievement");
      var score := Get(f, "score");
      var rank := Get(f, "scoreRank");
      Some(Detail(SongHead(i, f, true),
        When(achv != JNull, "达成率 " + FmtNumber(achv, 4, "%"))
        + When(score != JNull, "分数 " + PyStr(score))
        + When(Truthy(rank), "评级 " + PyStr(rank))))
  }

  /** One line of the recent-plays section: no difficulty and no score. */
  function RecentEntry(i: int, song: Json): Option<string> {
    if !song.JObj? then None
    else
      var f := song.fields;
      var achv := Get(f, "achievement");
      var rank := Get(f, "scoreRank");
      Some(Detail(SongHead(i, f, false),
        When(achv != JNull, "达成率 " + FmtNumber(achv, 4, "%"))
        + When(Truthy(rank), "评级 " + PyStr(rank))))
  }

  /** A song section: nothing for a falsy value; for a list a blank line, the
      title and one line per song of `songs[:3]`, numbered from 1. None when
      a truthy value is not a list (slicing or `.get` raises) or a shown song
      is not a dict. */
  function SongSection(title: string, songs: Json, entry: (int, Json) -> Option<string>): Option<seq<string>> {
    if !Truthy(songs) then Some([])
    else match songs
      case JArr(xs) =>
        (match Numbered(xs[..Min(SongCap, |xs|)], 1, entry)
         case None => None
         case Some(lines) => Some(["", title] + lines))
      case _ => None
  }

  /** One song section of `handle_mai`: the truthiness test, then the loop
      over `songs[:3]`. */
  method RenderSection(title: string, songs: Json, entry: (int, Json) -> Option<string>) returns (r: Option<seq<string>>)
    ensures r == SongSection(title, songs, entry)
  {
    if !Truthy(songs) {
      return Some([]);
    }
    if !songs.JArr? {
      return None;
    }
    var lines := RenderNumbered(songs.items[..Min(SongCap, |songs.items|)], 1, entry);
    if lines.None? {
      return None;
    }
    r := Some(["", title] + lines.value);
  }

  // ---------------------------------------------------------------- the report

  /** The whole lines of the report for a decoded 200 body, or None when
      building it raises: the body is not a dict, `maiStatistics` or
      `playActivity` is truthy but not a dict, or a song section fails. */
  function ProfileLines(data: Json, turboName: string): Option<seq<string>> {
    if !data.JObj? then None
    else
      var d := data.fields;
      var stats := Or(Get(d, "maiStatistics"), JObj([]));
      var play := Or(Get(d, "playActivity"), JObj([]));
      if !stats.JObj? || !play.JObj? then None
      else
        match SongSection(BestTitle, Get(d, "best35"), BestEntry)
        case None => None
        case Some(best) =>
          match SongSection(RecentTitle, Get(d, "recentScores"), RecentEntry)
          case None => None
          case Some(recent) =>
            Some(IdentityLines(d, turboName) + StatsLines(stats.fields) + PlayLines(play.fields) + best + recent)
  }

  /** What `/mai` answers once its request went out. */
  function MaiAfter(turboName: string, resp: Response): After {
    match Failure(resp, "请求 /web/user 失败", UserPath, "")
    case Some(msg) => Say(msg)
    case None =>
      match resp.body.json
      case None => Say(MaiParseError)
      case Some(data) =>
        match ProfileLines(data, turboName)
        case None => Crash
        case Some(lines) => Say(Join(lines))
  }

  /** The request `/mai` sends for `turboName`. */
  function UserRequest(qq: string, turboName: string, headers: map<string, string>): Request {
    Request(POST, UserPath, [("requesterId", qq)], Some(JObj([("turboName", JStr(turboName))])), headers)
  }

  /** `handle_mai`: the argument first, then the bind check, then the request. */
  function HandleMai(keys: map<string, string>, qq: string, args: string): Outcome {
    var text := Strip(args);
    if text == "" then Reply(MaiUsage)
    else
      var headers := AuthHeaders(keys, qq);
      if headers == map[] then Reply(NotBound("无法查询。"))
      else
        StripEmpty(args);
        var name := FirstWord(text);
        Call(UserRequest(qq, name, headers), MaiEnding(name))
  }

  // ---------------------------------------------------------------- properties

  /** Unlike the ticket commands, `/mai` looks at its argument before the key:
      without one every caller gets the usage text; with one, a caller without a
      key gets the bind-first message. */
  lemma MaiChecksArgumentFirst(keys: map<string, string>, qq: string, args: string)
    ensures AllSpace(args) ==> HandleMai(keys, qq, args) == Reply(MaiUsage)
    ensures !AllSpace(args) && AuthHeaders(keys, qq) == map[] ==>
      HandleMai(keys, qq, args) == Reply(NotBound("无法查询。"))
  {
    StripEmpty(args);
  }

  /** A bound caller's `/mai name ...` posts `{"turboName": name}` for the first
      word, with `requesterId` set to the caller's QQ and the caller's header. */
  lemma MaiSendsQuery(keys: map<string, string>, qq: string, args: string)
    requires !AllSpace(args) && qq in keys && keys[qq] != ""
    ensures var o := HandleMai(keys, qq, args);
      && o.Call?
      && o.req.verb == POST && o.req.path == UserPath
      && o.req.query == [("requesterId", qq)]
      && o.req.body == Some(JObj([("turboName", JStr(FirstWord(Strip(args))))]))
      && o.req.headers == map["Authorization" := "BotKey " + keys[qq]]
      && o.ending == MaiEnding(FirstWord(Strip(args)))
  {
    StripEmpty(args);
  }

  /** A song section is empty for a falsy value; for a non-empty list it holds
      the blank line, the title and exactly the first min(3, n) songs in order,
      and it fails exactly when one of those is not a dict. */
  lemma SongSectionShape(title: string, xs: seq<Json>, entry: (int, Json) -> Option<string>)
    requires xs != []
    ensures SongSection(title, JArr([]), entry) == Some([])
    ensures SongSection(title, JArr(xs), entry).Some? <==>
      forall k :: 0 <= k < Min(SongCap, |xs|) ==> entry(k + 1, xs[k]).Some?
    ensures SongSection(title, JArr(xs), entry).Some? ==>
      var lines := SongSection(title, JArr(xs), entry).value;
      && |lines| == 2 + Min(SongCap, |xs|)
      && lines[0] == "" && lines[1] == title
      && forall k :: 0 <= k < Min(SongCap, |xs|) ==> Some(lines[k + 2]) == entry(k + 1, xs[k])
  {
    NumberedFirst(xs, SongCap, 1, entry);
    var r := Numbered(xs[..Min(SongCap, |xs|)], 1, entry);
    if r.Some? {
      var lines := ["", title] + r.value;
      assert SongSection(title, JArr(xs), entry) == Some(lines);
      assert forall k :: 0 <= k < |r.value| ==> lines[k + 2] == r.value[k];
    }
  }

  /** A song line, whatever its extra parts, begins with the song's title. */
  lemma DetailStartsWithTitle(i: int, song: seq<(string, Json)>, withDiff: bool, extra: seq<string>)
    ensures StartsWith(Detail(SongHead(i, song, withDiff), extra), SongTitle(i, song))
  {
    var parts := [SongTitle(i, song)] + HeadExtras(song, withDiff);
    assert parts[0] == SongTitle(i, song);
    JoinWithHead(" ", parts);
    var head := SongHead(i, song, withDiff);
    if extra != [] {
      ConcatStartsWith(head, " | " + JoinWith(" / ", extra));
      assert Detail(head, extra) == head + (" | " + JoinWith(" / ", extra));
      StartsWithTrans(Detail(head, extra), head, SongTitle(i, song));
    }
  }

  /** Every song line begins `"<i>. <name>"`, the name falling back to 未知曲目. */
  lemma SongLineStartsWithTitle(i: int, song: seq<(string, Json)>)
    ensures StartsWith(BestEntry(i, JObj(song)).value, SongTitle(i, song))
    ensures StartsWith(RecentEntry(i, JObj(song)).value, SongTitle(i, song))
    ensures !Truthy(Get(song, "musicName")) ==> SongTitle(i, song) == IntText(i) + ". " + UnknownSong
  {
    var achv := Get(song, "achievement");
    var score := Get(song, "score");
    var rank := Get(song, "scoreRank");
    DetailStartsWithTitle(i, song, true,
      When(achv != JNull, "达成率 " + FmtNumber(achv, 4, "%"))
      + When(score != JNull, "分数 " + PyStr(score))
      + When(Truthy(rank), "评级 " + PyStr(rank)));
    DetailStartsWithTitle(i, song, false,
      When(achv != JNull, "达成率 " + FmtNumber(achv, 4, "%"))
      + When(Truthy(rank), "评级 " + PyStr(rank)));
  }

  /** A song with nothing but a name is shown as `"<i>. <name>"` alone. */
  lemma BareSongLine(i: int, name: string)
    requires name != ""
    ensures BestEntry(i, JObj([("musicName", JStr(name))])) == Some(IntText(i) + ". " + name)
    ensures RecentEntry(i, JObj([("musicName", JStr(name))])) == Some(IntText(i) + ". " + name)
  {
    var song := [("musicName", JStr(name))];
    assert "musicName"[0] != "level"[0] && "musicName"[0] != "diff"[0];
    assert "musicName"[0] != "achievement"[0] && "musicName"[0] != "scoreRank"[0];
    assert "musicName"[0] != "score"[0];
    assert SongHead(i, song, true) == SongTitle(i, song);
    assert SongHead(i, song, false) == SongTitle(i, song);
  }

  /** The report fails (the handler raises and sends nothing) when the body is
      not a dict, or when its statistics or play activity are truthy non-dicts. */
  lemma ProfileRaises(data: Json, turboName: string)
    requires !data.JObj?
      || (var s := Get(data.fields, "maiStatistics"); Truthy(s) && !s.JObj?)
      || (var p := Get(data.fields, "playActivity"); Truthy(p) && !p.JObj?)
    ensures ProfileLines(data, turboName) == None
    ensures MaiAfter(turboName, Http(200, Body("", Some(data)))) == Crash
  {
  }

  /** An empty dict still gives the fixed skeleton: the name asked for, the
      unset maimai name, both block titles and a DX Rating of 未知. */
  lemma EmptyProfile(turboName: string)
    ensures ProfileLines(JObj([]), turboName) == Some([
      "TurboNET 用户：" + turboName,
      "maimai 名称：（未设置）",
      "", StatsTitle, "DX Rating：未知",
      "", PlayTitle])
  {
    assert "maimai 名称：" + "（未设置）" == "maimai 名称：（未设置）";
    assert "DX Rating：" + "未知" == "DX Rating：未知";
    assert IdentityLines([], turboName) == ["TurboNET 用户：" + turboName, "maimai 名称：（未设置）"];
    assert StatsLines([]) == ["", StatsTitle, "DX Rating：未知"];
    assert PlayLines([]) == ["", PlayTitle];
    assert SongSection(BestTitle, JNull, BestEntry) == Some([]);
    assert SongSection(RecentTitle, JNull, RecentEntry) == Some([]);
    assert ProfileLines(JObj([]), turboName) == Some(IdentityLines([], turboName) + StatsLines([]) + PlayLines([]) + [] + []);
    var ident := ["TurboNET 用户：" + turboName, "maimai 名称：（未设置）"];
    var stats := ["", StatsTitle, "DX Rating：未知"];
    var play := ["", PlayTitle];
    assert ident + stats + play + [] + [] == ident + stats + play;
    assert ident + stats + play == [ident[0], ident[1], stats[0], stats[1], stats[2], play[0], play[1]];
  }

  /** The two name lines always open the identity block, whatever the
      body holds: the user name falls back to the name asked for, the maimai
      name to （未设置）. */
  lemma IdentityHead(d: seq<(string, Json)>, turboName: string)
    ensures |IdentityLines(d, turboName)| >= 2
    ensures IdentityLines(d, turboName)[0] == "TurboNET 用户：" + PyStr(Or(Get(d, "turboName"), JStr(turboName)))
    ensures IdentityLines(d, turboName)[1] == "maimai 名称：" + PyStr(Or(Get(d, "maimaiName"), JStr("（未设置）")))
  {
  }

  /** The statistics block always opens with a blank line, its title and
      the DX Rating line, whatever else is missing. */
  lemma StatsHead(s: seq<(string, Json)>)
    ensures |StatsLines(s)| >= 3
    ensures StatsLines(s)[0] == "" && StatsLines(s)[1] == StatsTitle
    ensures StatsLines(s)[2] == "DX Rating：" + FmtNumber(Get(s, "deluxRating"), 0, "")
  {
  }

  /** The identity block is just the two name lines exactly when every
      optional field is absent or falsy (`isMe` only when absent). */
  lemma IdentityMinimal(d: seq<(string, Json)>, turboName: string)
    ensures |IdentityLines(d, turboName)| == 2 <==>
      && !Truthy(Get(d, "qqNumber")) && Get(d, "isMe") == JNull
      && !Truthy(Get(d, "permission")) && !Truthy(Get(d, "warningTimes"))
      && !Truthy(Get(d, "warningMessage")) && !Truthy(Get(d, "isBanned"))
  {
  }

  /** The statistics block is the blank line, the title and DX Rating alone
      exactly when none of its other six figures is given. */
  lemma StatsMinimal(s: seq<(string, Json)>)
    ensures |StatsLines(s)| == 3 <==>
      && Get(s, "serverRanking") == JNull && Get(s, "averageAccuracy") == JNull
      && Get(s, "maxCombo") == JNull && Get(s, "fullCombo") == JNull
      && Get(s, "allPerfect") == JNull && Get(s, "totalScores") == JNull
  {
  }

  /** With a version the last play reads `"<date>（版本：<version>）"`, without one
      just the date. */
  lemma LastPlayLine(p: seq<(string, Json)>)
    requires Truthy(Get(p, "lastPlay"))
    ensures var last := PyStr(Get(p, "lastPlay"));
      var lines := PlayLines(p);
      && lines[|lines| - 1] == "最近游玩：" + last + (if Truthy(Get(p, "playVersion"))
           then "（版本：" + PyStr(Get(p, "playVersion")) + "）" else "")
  {
  }

  // ---------------------------------------------------------------- one line per field

  /** Two lines that differ at position `i` differ. */
  lemma LineDiffers(p: string, v: string, line: string, i: nat)
    requires i < |p| && i < |line| && p[i] != line[i]
    ensures line != p + v
  {
    assert (p + v)[i] == p[i];
  }

  /** A line that differs from `p + v` at position `i` is not among the lines
      `When(shown, p + v)` adds. */
  lemma NotInWhen(shown: bool, p: string, v: string, line: string, i: nat)
    requires i < |p| && i < |line| && p[i] != line[i]
    ensures line !in When(shown, p + v)
  {
    LineDiffers(p, v, line, i);
  }


  /** The QQ line is shown exactly when `qqNumber` is truthy. */
  lemma IdentityQqLine(d: seq<(string, Json)>, turboName: string)
    ensures ("绑定 QQ：" + PyStr(Get(d, "qqNumber"))) in IdentityLines(d, turboName) <==> Truthy(Get(d, "qqNumber"))
  {
    var qq := Get(d, "qqNumber");
    var isMe := Get(d, "isMe");
    var permission := Get(d, "permission");
    var warnings := Get(d, "warningTimes");
    var warning := Get(d, "warningMessage");
    var banned := Get(d, "bannedMessage");
    var isBanned := Get(d, "isBanned");
    var line := "绑定 QQ：" + PyStr(qq);
    assert line[0] == '绑';
    NotInWhen(isMe != JNull, "是否本人：", (if Truthy(isMe) then "是" else "否"), line, 0);
    NotInWhen(Truthy(permission), "权限等级：", PyStr(permission), line, 0);
    NotInWhen(Truthy(warnings), "警告次数：", PyStr(warnings), line, 0);
    NotInWhen(Truthy(warning), "最近警告：", PyStr(warning), line, 0);
    NotInWhen(Truthy(isBanned), "封禁状态：已封禁（" + PyStr(Or(banned, JStr("无说明"))), "）", line, 0);
    LineDiffers("TurboNET 用户：", PyStr(Or(Get(d, "turboName"), JStr(turboName))), line, 0);
    LineDiffers("maimai 名称：", PyStr(Or(Get(d, "maimaiName"), JStr("（未设置）"))), line, 0);
  }

  /** The self line (是 or 否 by truthiness) is shown exactly when `isMe` is not
      None, so `false` still shows 否. */
  lemma IdentitySelfLine(d: seq<(string, Json)>, turboName: string)
    ensures ("是否本人：" + (if Truthy(Get(d, "isMe")) then "是" else "否")) in IdentityLines(d, turboName) <==> Get(d, "isMe") != JNull
  {
    var qq := Get(d, "qqNumber");
    var isMe := Get(d, "isMe");
    var permission := Get(d, "permission");
    var warnings := Get(d, "warningTimes");
    var warning := Get(d, "warningMessage");
    var banned := Get(d, "bannedMessage");
    var isBanned := Get(d, "isBanned");
    var line := "是否本人：" + (if Truthy(isMe) then "是" else "否");
    assert line[0] == '是';
    NotInWhen(Truthy(qq), "绑定 QQ：", PyStr(qq), line, 0);
    NotInWhen(Truthy(permission), "权限等级：", PyStr(permission), line, 0);
    NotInWhen(Truthy(warnings), "警告次数：", PyStr(warnings), line, 0);
    NotInWhen(Truthy(warning), "最近警告：", PyStr(warning), line, 0);
    NotInWhen(Truthy(isBanned), "封禁状态：已封禁（" + PyStr(Or(banned, JStr("无说明"))), "）", line, 0);
    LineDiffers("TurboNET 用户：", PyStr(Or(Get(d, "turboName"), JStr(turboName))), line, 0);
    LineDiffers("maimai 名称：", PyStr(Or(Get(d, "maimaiName"), JStr("（未设置）"))), line, 0);
  }

  /** The permission line is shown exactly when `permission` is truthy, so level 0
      is not shown. */
  lemma IdentityPermissionLine(d: seq<(string, Json)>, turboName: string)
    ensures ("权限等级：" + PyStr(Get(d, "permission"))) in IdentityLines(d, turboName) <==> Truthy(Get(d, "permission"))
  {
    var qq := Get(d, "qqNumber");
    var isMe := Get(d, "isMe");
    var permission := Get(d, "permission");
    var warnings := Get(d, "warningTimes");
    var warning := Get(d, "warningMessage");
    var banned := Get(d, "bannedMessage");
    var isBanned := Get(d, "isBanned");
    var line := "权限等级：" + PyStr(permission);
    assert line[0] == '权';
    NotInWhen(Truthy(qq), "绑定 QQ：", PyStr(qq), line, 0);
    NotInWhen(isMe != JNull, "是否本人：", (if Truthy(isMe) then "是" else "否"), line, 0);
    NotInWhen(Truthy(warnings), "警告次数：", PyStr(warnings), line, 0);
    NotInWhen(Truthy(warning), "最近警告：", PyStr(warning), line, 0);
    NotInWhen(Truthy(isBanned), "封禁状态：已封禁（" + PyStr(Or(banned, JStr("无说明"))), "）", line, 0);
    LineDiffers("TurboNET 用户：", PyStr(Or(Get(d, "turboName"), JStr(turboName))), line, 0);
    LineDiffers("maimai 名称：", PyStr(Or(Get(d, "maimaiName"), JStr("（未设置）"))), line, 0);
  }

  /** The warning count is shown exactly when `warningTimes` is truthy, so 0 is
      not shown. */
  lemma IdentityWarningsLine(d: seq<(string, Json)>, turboName: string)
    ensures ("警告次数：" + PyStr(Get(d, "warningTimes"))) in IdentityLines(d, turboName) <==> Truthy(Get(d, "warningTimes"))
  {
    var qq := Get(d, "qqNumber");
    var isMe := Get(d, "isMe");
    var permission := Get(d, "permission");
    var warnings := Get(d, "warningTimes");
    var warning := Get(d, "warningMessage");
    var banned := Get(d, "bannedMessage");
    var isBanned := Get(d, "isBanned");
    var line := "警告次数：" + PyStr(warnings);
    assert line[0] == '警';
    NotInWhen(Truthy(qq), "绑定 QQ：", PyStr(qq), line, 0);
    NotInWhen(isMe != JNull, "是否本人：", (if Truthy(isMe) then "是" else "否"), line, 0);
    NotInWhen(Truthy(permission), "权限等级：", PyStr(permission), line, 0);
    NotInWhen(Truthy(warning), "最近警告：", PyStr(warning), line, 0);
    NotInWhen(Truthy(isBanned), "封禁状态：已封禁（" + PyStr(Or(banned, JStr("无说明"))), "）", line, 0);
    LineDiffers("TurboNET 用户：", PyStr(Or(Get(d, "turboName"), JStr(turboName))), line, 0);
    LineDiffers("maimai 名称：", PyStr(Or(Get(d, "maimaiName"), JStr("（未设置）"))), line, 0);
  }

  /** The last warning is shown exactly when `warningMessage` is truthy. */
  lemma IdentityWarningLine(d: seq<(string, Json)>, turboName: string)
    ensures ("最近警告：" + PyStr(Get(d, "warningMessage"))) in IdentityLines(d, turboName) <==> Truthy(Get(d, "warningMessage"))
  {
    var qq := Get(d, "qqNumber");
    var isMe := Get(d, "isMe");
    var permission := Get(d, "permission");
    var warnings := Get(d, "warningTimes");
    var warning := Get(d, "warningMessage");
    var banned := Get(d, "bannedMessage");
    var isBanned := Get(d, "isBanned");
    var line := "最近警告：" + PyStr(warning);
    assert line[0] == '最';
    NotInWhen(Truthy(qq), "绑定 QQ：", PyStr(qq), line, 0);
    NotInWhen(isMe != JNull, "是否本人：", (if Truthy(isMe) then "是" else "否"), line, 0);
    NotInWhen(Truthy(permission), "权限等级：", PyStr(permission), line, 0);
    NotInWhen(Truthy(warnings), "警告次数：", PyStr(warnings), line, 0);
    NotInWhen(Truthy(isBanned), "封禁状态：已封禁（" + PyStr(Or(banned, JStr("无说明"))), "）", line, 0);
    LineDiffers("TurboNET 用户：", PyStr(Or(Get(d, "turboName"), JStr(turboName))), line, 0);
    LineDiffers("maimai 名称：", PyStr(Or(Get(d, "maimaiName"), JStr("（未设置）"))), line, 0);
  }

  /** The ban line, with 无说明 when no reason is given, is shown exactly when
      `isBanned` is truthy. */
  lemma IdentityBanLine(d: seq<(string, Json)>, turboName: string)
    ensures ("封禁状态：已封禁（" + PyStr(Or(Get(d, "bannedMessage"), JStr("无说明"))) + "）") in IdentityLines(d, turboName) <==> Truthy(Get(d, "isBanned"))
  {
    var qq := Get(d, "qqNumber");
    var isMe := Get(d, "isMe");
    var permission := Get(d, "permission");
    var warnings := Get(d, "warningTimes");
    var warning := Get(d, "warningMessage");
    var banned := Get(d, "bannedMessage");
    var isBanned := Get(d, "isBanned");
    var line := "封禁状态：已封禁（" + PyStr(Or(banned, JStr("无说明"))) + "）";
    assert line[0] == '封';
    NotInWhen(Truthy(qq), "绑定 QQ：", PyStr(qq), line, 0);
    NotInWhen(isMe != JNull, "是否本人：", (if Truthy(isMe) then "是" else "否"), line, 0);
    NotInWhen(Truthy(permission), "权限等级：", PyStr(permission), line, 0);
    NotInWhen(Truthy(warnings), "警告次数：", PyStr(warnings), line, 0);
    NotInWhen(Truthy(warning), "最近警告：", PyStr(warning), line, 0);
    LineDiffers("TurboNET 用户：", PyStr(Or(Get(d, "turboName"), JStr(turboName))), line, 0);
    LineDiffers("maimai 名称：", PyStr(Or(Get(d, "maimaiName"), JStr("（未设置）"))), line, 0);
  }

  /** The server ranking is shown exactly when `serverRanking` is not None. */
  lemma StatsRankLine(s: seq<(string, Json)>)
    ensures ("服务器排名：#" + PyStr(Get(s, "serverRanking"))) in StatsLines(s) <==> Get(s, "serverRanking") != JNull
  {
    var rank := Get(s, "serverRanking");
    var acc := Get(s, "averageAccuracy");
    var combo := Get(s, "maxCombo");
    var fc := Get(s, "fullCombo");
    var ap := Get(s, "allPerfect");
    var total := Get(s, "totalScores");
    var line := "服务器排名：#" + PyStr(rank);
    assert line[0] == '服';
    NotInWhen(acc != JNull, "平均达成率：", FmtNumber(acc, 2, "%"), line, 0);
    NotInWhen(combo != JNull, "历史最大连击：", PyStr(combo), line, 0);
    NotInWhen(fc != JNull, "Full Combo 数：", PyStr(fc), line, 0);
    NotInWhen(ap != JNull, "All Perfect 数：", PyStr(ap), line, 0);
    NotInWhen(total != JNull, "总成绩数：", PyStr(total), line, 0);
    LineDiffers("DX Rating：", FmtNumber(Get(s, "deluxRating"), 0, ""), line, 0);
  }

  /** The average accuracy, with two places and a percent sign, is shown exactly
      when `averageAccuracy` is not None. */
  lemma StatsAccuracyLine(s: seq<(string, Json)>)
    ensures ("平均达成率：" + FmtNumber(Get(s, "averageAccuracy"), 2, "%")) in StatsLines(s) <==> Get(s, "averageAccuracy") != JNull
  {
    var rank := Get(s, "serverRanking");
    var acc := Get(s, "averageAccuracy");
    var combo := Get(s, "maxCombo");
    var fc := Get(s, "fullCombo");
    var ap := Get(s, "allPerfect");
    var total := Get(s, "totalScores");
    var line := "平均达成率：" + FmtNumber(acc, 2, "%");
    assert line[0] == '平';
    NotInWhen(rank != JNull, "服务器排名：#", PyStr(rank), line, 0);
    NotInWhen(combo != JNull, "历史最大连击：", PyStr(combo), line, 0);
    NotInWhen(fc != JNull, "Full Combo 数：", PyStr(fc), line, 0);
    NotInWhen(ap != JNull, "All Perfect 数：", PyStr(ap), line, 0);
    NotInWhen(total != JNull, "总成绩数：", PyStr(total), line, 0);
    LineDiffers("DX Rating：", FmtNumber(Get(s, "deluxRating"), 0, ""), line, 0);
  }

  /** The maximum combo is shown exactly when `maxCombo` is not None, so 0 is shown. */
  lemma StatsComboLine(s: seq<(string, Json)>)
    ensures ("历史最大连击：" + PyStr(Get(s, "maxCombo"))) in StatsLines(s) <==> Get(s, "maxCombo") != JNull
  {
    var rank := Get(s, "serverRanking");
    var acc := Get(s, "averageAccuracy");
    var combo := Get(s, "maxCombo");
    var fc := Get(s, "fullCombo");
    var ap := Get(s, "allPerfect");
    var total := Get(s, "totalScores");
    var line := "历史最大连击：" + PyStr(combo);
    assert line[0] == '历';
    NotInWhen(rank != JNull, "服务器排名：#", PyStr(rank), line, 0);
    NotInWhen(acc != JNull, "平均达成率：", FmtNumber(acc, 2, "%"), line, 0);
    NotInWhen(fc != JNull, "Full Combo 数：", PyStr(fc), line, 0);
    NotInWhen(ap != JNull, "All Perfect 数：", PyStr(ap), line, 0);
    NotInWhen(total != JNull, "总成绩数：", PyStr(total), line, 0);
    LineDiffers("DX Rating：", FmtNumber(Get(s, "deluxRating"), 0, ""), line, 0);
  }

  /** The Full Combo count is shown exactly when `fullCombo` is not None. */
  lemma StatsFullComboLine(s: seq<(string, Json)>)
    ensures ("Full Combo 数：" + PyStr(Get(s, "fullCombo"))) in StatsLines(s) <==> Get(s, "fullCombo") != JNull
  {
    var rank := Get(s, "serverRanking");
    var acc := Get(s, "averageAccuracy");
    var combo := Get(s, "maxCombo");
    var fc := Get(s, "fullCombo");
    var ap := Get(s, "allPerfect");
    var total := Get(s, "totalScores");
    var line := "Full Combo 数：" + PyStr(fc);
    assert line[0] == 'F';
    NotInWhen(rank != JNull, "服务器排名：#", PyStr(rank), line, 0);
    NotInWhen(acc != JNull, "平均达成率：", FmtNumber(acc, 2, "%"), line, 0);
    NotInWhen(combo != JNull, "历史最大连击：", PyStr(combo), line, 0);
    NotInWhen(ap != JNull, "All Perfect 数：", PyStr(ap), line, 0);
    NotInWhen(total != JNull, "总成绩数：", PyStr(total), line, 0);
    LineDiffers("DX Rating：", FmtNumber(Get(s, "deluxRating"), 0, ""), line, 0);
  }

  /** The All Perfect count is shown exactly when `allPerfect` is not None. */
  lemma StatsAllPerfectLine(s: seq<(string, Json)>)
    ensures ("All Perfect 数：" + PyStr(Get(s, "allPerfect"))) in StatsLines(s) <==> Get(s, "allPerfect") != JNull
  {
    var rank := Get(s, "serverRanking");
    var acc := Get(s, "averageAccuracy");
    var combo := Get(s, "maxCombo");
    var fc := Get(s, "fullCombo");
    var ap := Get(s, "allPerfect");
    var total := Get(s, "totalScores");
    var line := "All Perfect 数：" + PyStr(ap);
    assert line[0] == 'A';
    NotInWhen(rank != JNull, "服务器排名：#", PyStr(rank), line, 0);
    NotInWhen(acc != JNull, "平均达成率：", FmtNumber(acc, 2, "%"), line, 0);
    NotInWhen(combo != JNull, "历史最大连击：", PyStr(combo), line, 0);
    NotInWhen(fc != JNull, "Full Combo 数：", PyStr(fc), line, 0);
    NotInWhen(total != JNull, "总成绩数：", PyStr(total), line, 0);
    LineDiffers("DX Rating：", FmtNumber(Get(s, "deluxRating"), 0, ""), line, 0);
  }

  /** The score total is shown exactly when `totalScores` is not None. */
  lemma StatsTotalLine(s: seq<(string, Json)>)
    ensures ("总成绩数：" + PyStr(Get(s, "totalScores"))) in StatsLines(s) <==> Get(s, "totalScores") != JNull
  {
    var rank := Get(s, "serverRanking");
    var acc := Get(s, "averageAccuracy");
    var combo := Get(s, "maxCombo");
    var fc := Get(s, "fullCombo");
    var ap := Get(s, "allPerfect");
    var total := Get(s, "totalScores");
    var line := "总成绩数：" + PyStr(total);
    assert line[0] == '总';
    NotInWhen(rank != JNull, "服务器排名：#", PyStr(rank), line, 0);
    NotInWhen(acc != JNull, "平均达成率：", FmtNumber(acc, 2, "%"), line, 0);
    NotInWhen(combo != JNull, "历史最大连击：", PyStr(combo), line, 0);
    NotInWhen(fc != JNull, "Full Combo 数：", PyStr(fc), line, 0);
    NotInWhen(ap != JNull, "All Perfect 数：", PyStr(ap), line, 0);
    LineDiffers("DX Rating：", FmtNumber(Get(s, "deluxRating"), 0, ""), line, 0);
  }

  /** The play count is shown exactly when `playCount` is not None. */
  lemma PlayCountLine(p: seq<(string, Json)>)
    ensures ("总游玩次数：" + PyStr(Get(p, "playCount"))) in PlayLines(p) <==> Get(p, "playCount") != JNull
  {
    var count := Get(p, "playCount");
    var time := Get(p, "playTime");
    var first := Get(p, "firstPlay");
    var last := Get(p, "lastPlay");
    var version := Get(p, "playVersion");
    var line := "总游玩次数：" + PyStr(count);
    assert line[0] == '总' && line[3] == '次';
    NotInWhen(time != JNull, "总游玩时长：" + FmtNumber(time, 1, ""), " 小时", line, 3);
    NotInWhen(Truthy(first), "首次游玩：", PyStr(first), line, 0);
    NotInWhen(Truthy(last), "最近游玩：" + PyStr(last), (if Truthy(version) then "（版本：" + PyStr(version) + "）" else ""), line, 0);
  }

  /** The play time, in hours with one place, is shown exactly when `playTime` is
      not None. */
  lemma PlayTimeLine(p: seq<(string, Json)>)
    ensures ("总游玩时长：" + FmtNumber(Get(p, "playTime"), 1, "") + " 小时") in PlayLines(p) <==> Get(p, "playTime") != JNull
  {
    var count := Get(p, "playCount");
    var time := Get(p, "playTime");
    var first := Get(p, "firstPlay");
    var last := Get(p, "lastPlay");
    var version := Get(p, "playVersion");
    var line := "总游玩时长：" + FmtNumber(time, 1, "") + " 小时";
    assert line[0] == '总' && line[3] == '时';
    NotInWhen(count != JNull, "总游玩次数：", PyStr(count), line, 3);
    NotInWhen(Truthy(first), "首次游玩：", PyStr(first), line, 0);
    NotInWhen(Truthy(last), "最近游玩：" + PyStr(last), (if Truthy(version) then "（版本：" + PyStr(version) + "）" else ""), line, 0);
  }

  /** The first play is shown exactly when `firstPlay` is truthy. */
  lemma FirstPlayLine(p: seq<(string, Json)>)
    ensures ("首次游玩：" + PyStr(Get(p, "firstPlay"))) in PlayLines(p) <==> Truthy(Get(p, "firstPlay"))
  {
    var count := Get(p, "playCount");
    var time := Get(p, "playTime");
    var first := Get(p, "firstPlay");
    var last := Get(p, "lastPlay");
    var version := Get(p, "playVersion");
    var line := "首次游玩：" + PyStr(first);
    assert line[0] == '首';
    NotInWhen(count != JNull, "总游玩次数：", PyStr(count), line, 0);
    NotInWhen(time != JNull, "总游玩时长：" + FmtNumber(time, 1, ""), " 小时", line, 0);
    NotInWhen(Truthy(last), "最近游玩：" + PyStr(last), (if Truthy(version) then "（版本：" + PyStr(version) + "）" else ""), line, 0);
  }

  /** The last play, with its version when one is given, is shown exactly when
      `lastPlay` is truthy. */
  lemma LastPlayShown(p: seq<(string, Json)>)
    ensures ("最近游玩：" + PyStr(Get(p, "lastPlay")) + (if Truthy(Get(p, "playVersion")) then "（版本：" + PyStr(Get(p, "playVersion")) + "）" else "")) in PlayLines(p) <==> Truthy(Get(p, "lastPlay"))
  {
    var count := Get(p, "playCount");
    var time := Get(p, "playTime");
    var first := Get(p, "firstPlay");
    var last := Get(p, "lastPlay");
    var version := Get(p, "playVersion");
    var line := "最近游玩：" + PyStr(last) + (if Truthy(version) then "（版本：" + PyStr(version) + "）" else "");
    assert line[0] == '最';
    NotInWhen(count != JNull, "总游玩次数：", PyStr(count), line, 0);
    NotInWhen(time != JNull, "总游玩时长：" + FmtNumber(time, 1, ""), " 小时", line, 0);
    NotInWhen(Truthy(first), "首次游玩：", PyStr(first), line, 0);
  }
}

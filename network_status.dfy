/** The two network-status reports: `/mai_status` with the caller's key, and
    `/net` with the administrator's. */
module NetworkStatus {
  import opened Wrappers
  import opened PyText
  import opened JsonValue
  import opened Credentials
  import opened Api

  const StatusPath: string := "/web/showNetworkStatus"
  const StatusHeader: string := "当前 TurboNET 机厅网络状态（最多显示前 5 条）："
  const NoStatusData: string := "当前没有机厅状态数据。"
  /** How many arcades `/mai_status` shows at most. */
  const StatusCap: nat := 5

  /** The status names `/mai_status` shows. */
  const UserTable: map<string, string> :=
    map["WORKING" := "正常", "WARNING" := "警告", "ERROR" := "错误", "UNKNOWN" := "未知"]

  /** The status names `/net` shows. */
  const AdminTable: map<string, string> :=
    map["WORKING" := "工作中", "WARNING" := "警告", "ERROR" := "掉线啦！！！", "UNKNOWN" := "未知"]

  /** `str(table.get(ws, ws))`: the table's name for a known code, the code
      itself otherwise. None when `ws` is a list or a dict, which cannot be
      looked up in a dict (TypeError). */
  function Translate(table: map<string, string>, ws: Json): (r: Option<string>)
    ensures r.None? <==> ws.JArr? || ws.JObj?
    ensures ws.JStr? && ws.s in table ==> r == Some(table[ws.s])
    ensures ws.JStr? && ws.s !in table ==> r == Some(ws.s)
  {
    match ws
    case JArr(_) => None
    case JObj(_) => None
    case JStr(code) => Some(if code in table then table[code] else code)
    case _ => Some(PyStr(ws))
  }

  /** The status code an arcade entry stands for: its `workingStatus`, or UNKNOWN. */
  function WorkingStatus(fields: seq<(string, Json)>): Json {
    Or(Get(fields, "workingStatus"), JStr("UNKNOWN"))
  }

  /** The heartbeat an arcade entry shows: its `lastHeartbeatSecond`, or 未知时间. */
  function Heartbeat(fields: seq<(string, Json)>): string {
    PyStr(Or(Get(fields, "lastHeartbeatSecond"), JStr("未知时间")))
  }

  function ArcadeName(fields: seq<(string, Json)>): string {
    PyStr(Or(Get(fields, "arcadeName"), JStr("未知机厅")))
  }

  // ---------------------------------------------------------------- /mai_status

  /** One `/mai_status` line, for the entry at 1-based position `index`
      (which the line does not show); None when the entry is not a dict or its
      status cannot be looked up. */
  function StatusEntry(index: int, arcade: Json): Option<string> {
    if !arcade.JObj? then None
    else
      var f := arcade.fields;
      var atype := PyStr(Or(Get(f, "arcadeType"), JStr("未知类型")));
      match Translate(UserTable, WorkingStatus(f))
      case None => None
      case Some(ws) => Some("- " + ArcadeName(f) + " [" + atype + "] 状态：" + ws + "（最后心跳：" + Heartbeat(f) + "）")
  }

  /** The lines of `/mai_status` for a non-empty decoded body: the header, then
      one line for each of `data[:5]`. A string slices into characters, whose
      `.get` raises; any other non-list value cannot be sliced. */
  function StatusLines(data: Json): Option<seq<string>> {
    match data
    case JArr(xs) =>
      (match Numbered(xs[..Min(StatusCap, |xs|)], 1, StatusEntry)
       case None => None
       case Some(lines) => Some([StatusHeader] + lines))
    case JStr(s) => if s == [] then Some([StatusHeader]) else None
    case _ => None
  }

  /** `handle_status` from the decoded body on: the loop over `data[:5]`. */
  method RenderStatus(data: Json) returns (r: Option<seq<string>>)
    ensures r == StatusLines(data)
  {
    if !data.JArr? {
      if data.JStr? && data.s == [] {
        return Some([StatusHeader]);
      }
      return None;
    }
    var lines := RenderNumbered(data.items[..Min(StatusCap, |data.items|)], 1, StatusEntry);
    if lines.None? {
      return None;
    }
    r := Some([StatusHeader] + lines.value);
  }

  /** `handle_status`. */
  function HandleStatus(keys: map<string, string>, qq: string): Outcome {
    var headers := AuthHeaders(keys, qq);
    if headers == map[] then Reply(NotBound("无法查询机厅网络状态。"))
    else Call(Request(GET, StatusPath, [], None, headers), StatusEnding)
  }

  function StatusAfter(resp: Response): After {
    match Failure(resp, "请求 /web/showNetworkStatus 失败", StatusPath, "")
    case Some(msg) => Say(msg)
    case None =>
      match resp.body.json
      case None => Say("解析网络状态返回内容失败。")
      case Some(data) =>
        if !Truthy(data) then Say(NoStatusData)
        else match StatusLines(data)
          case None => Crash
          case Some(lines) => Say(Join(lines))
  }

  // ---------------------------------------------------------------- /net

  /** One `/net` line, prefixed with its 1-based ordinal; None as for `StatusEntry`. */
  function NetEntry(index: int, arcade: Json): Option<string> {
    if !arcade.JObj? then None
    else
      var f := arcade.fields;
      match Translate(AdminTable, WorkingStatus(f))
      case None => None
      case Some(ws) => Some(IntText(index) + "." + NetText(f, ws))
  }

  /** What a `/net` line says after its ordinal. */
  function NetText(f: seq<(string, Json)>, ws: string): string {
    ArcadeName(f) + " 状态：" + ws + " 最后返回心跳包时间：" + Heartbeat(f)
  }

  /** The lines of `/net`: one per entry of `enumerate(data, start=1)`, uncapped.
      Iterating a dict or a string yields strings, whose `.get` raises; None, a
      bool or an int cannot be iterated. */
  function NetLines(data: Json): Option<seq<string>> {
    match data
    case JArr(xs) => Numbered(xs, 1, NetEntry)
    case JObj(fs) => if fs == [] then Some([]) else None
    case JStr(s) => if s == [] then Some([]) else None
    case _ => None
  }

  /** `handle_net` from the decoded body on: the loop over `enumerate(data, start=1)`. */
  method RenderNet(data: Json) returns (r: Option<seq<string>>)
    ensures r == NetLines(data)
  {
    if !data.JArr? {
      if (data.JObj? && data.fields == []) || (data.JStr? && data.s == []) {
        return Some([]);
      }
      return None;
    }
    r := RenderNumbered(data.items, 1, NetEntry);
  }

  /** `handle_net`: the administrator's key; no status check is caught, so a
      transport failure, a non-2xx status (`raise_for_status`) or an undecodable
      body ends the handler without a reply. */
  function HandleNet(keys: map<string, string>, adminConfig: string): Outcome {
    var admin := Strip(adminConfig);
    if admin == "" then Reply(AdminMissing)
    else
      var headers := AuthHeaders(keys, admin);
      if headers == map[] then Reply(AdminNotBound("无法查询网络状态。"))
      else Call(Request(GET, StatusPath, [], None, headers), NetEnding)
  }

  function NetAfter(resp: Response): After {
    match resp
    case TransportError(_) => Crash
    case Http(status, body) =>
      if !(200 <= status < 300) then Crash
      else match body.json
        case None => Crash
        case Some(data) =>
          match NetLines(data)
          case None => Crash
          case Some(lines) => Say(Join(lines))
  }

  // ---------------------------------------------------------------- properties

  /** `/mai_status` shows the header and then exactly the first min(5, n) arcades,
      in the order given, one line each; it fails only when one of those does. */
  lemma StatusShowsFirstFive(xs: seq<Json>)
    ensures StatusLines(JArr(xs)).Some? <==>
      forall k :: 0 <= k < Min(StatusCap, |xs|) ==> StatusEntry(k + 1, xs[k]).Some?
    ensures StatusLines(JArr(xs)).Some? ==>
      var lines := StatusLines(JArr(xs)).value;
      && |lines| == 1 + Min(StatusCap, |xs|)
      && lines[0] == StatusHeader
      && forall k :: 0 <= k < Min(StatusCap, |xs|) ==> Some(lines[k + 1]) == StatusEntry(k + 1, xs[k])
  {
    NumberedFirst(xs, StatusCap, 1, StatusEntry);
    var r := Numbered(xs[..Min(StatusCap, |xs|)], 1, StatusEntry);
    if r.Some? {
      var lines := [StatusHeader] + r.value;
      assert StatusLines(JArr(xs)) == Some(lines);
      assert forall k :: 0 <= k < |r.value| ==> lines[k + 1] == r.value[k];
    }
  }

  /** An empty list (or any falsy body) gives exactly "当前没有机厅状态数据。". */
  lemma StatusEmpty(text: string, data: Json)
    requires !Truthy(data)
    ensures StatusAfter(Http(200, Body(text, Some(data)))) == Say(NoStatusData)
  {
  }

  /** A `/net` line starts with its ordinal and a point. */
  lemma NetEntryOrdinal(index: int, arcade: Json)
    requires NetEntry(index, arcade).Some?
    ensures StartsWith(NetEntry(index, arcade).value, IntText(index) + ".")
  {
    var f := arcade.fields;
    ConcatStartsWith(IntText(index) + ".", NetText(f, Translate(AdminTable, WorkingStatus(f)).value));
  }

  /** `/net` shows every arcade, uncapped and in order, the k-th prefixed "k.". */
  lemma NetShowsAll(xs: seq<Json>)
    ensures NetLines(JArr(xs)).Some? <==> forall k :: 0 <= k < |xs| ==> NetEntry(k + 1, xs[k]).Some?
    ensures NetLines(JArr(xs)).Some? ==>
      var lines := NetLines(JArr(xs)).value;
      && |lines| == |xs|
      && forall k :: 0 <= k < |xs| ==>
           Some(lines[k]) == NetEntry(k + 1, xs[k])
           && StartsWith(lines[k], IntText(k + 1) + ".")
  {
    NumberedLines(xs, 1, NetEntry);
    forall k | 0 <= k < |xs| && NetEntry(k + 1, xs[k]).Some?
      ensures StartsWith(NetEntry(k + 1, xs[k]).value, IntText(k + 1) + ".")
    {
      NetEntryOrdinal(k + 1, xs[k]);
    }
  }

  /** `/net` asks with the administrator's key: the configuration first, then
      the administrator's binding, then `GET /web/showNetworkStatus` with the
      administrator's header, whoever sent the command. */
  lemma NetUsesAdminKey(keys: map<string, string>, adminConfig: string)
    ensures var o := HandleNet(keys, adminConfig);
      var admin := Strip(adminConfig);
      && (admin == "" ==> o == Reply(AdminMissing))
      && (admin != "" && AuthHeaders(keys, admin) == map[] ==> o == Reply(AdminNotBound("无法查询网络状态。")))
      && (o.Call? <==> admin != "" && admin in keys && keys[admin] != "")
      && (o.Call? ==>
           o == Call(Request(GET, StatusPath, [], None, map["Authorization" := "BotKey " + keys[admin]]), NetEnding))
  {
  }

  /** The two tables differ: ERROR is 错误 for users and 掉线啦！！！ for the
      administrator; an unknown code such as PAUSED passes through in both. */
  lemma TablesDiffer()
    ensures Translate(UserTable, JStr("ERROR")) == Some("错误")
    ensures Translate(AdminTable, JStr("ERROR")) == Some("掉线啦！！！")
    ensures Translate(UserTable, JStr("PAUSED")) == Some("PAUSED")
    ensures Translate(AdminTable, JStr("PAUSED")) == Some("PAUSED")
  {
    assert "PAUSED" !in UserTable by {
      assert "PAUSED"[0] != "WORKING"[0] && "PAUSED"[0] != "WARNING"[0];
      assert "PAUSED"[0] != "ERROR"[0] && "PAUSED"[0] != "UNKNOWN"[0];
    }
    assert "PAUSED" !in AdminTable by {
      assert "PAUSED"[0] != "WORKING"[0] && "PAUSED"[0] != "WARNING"[0];
      assert "PAUSED"[0] != "ERROR"[0] && "PAUSED"[0] != "UNKNOWN"[0];
    }
  }

  /** An arcade without a status shows 未知 and one without a heartbeat shows
      未知时间, in both reports. */
  lemma MissingFieldsFallBack(fields: seq<(string, Json)>)
    requires !Truthy(Get(fields, "workingStatus")) && !Truthy(Get(fields, "lastHeartbeatSecond"))
    ensures Translate(UserTable, WorkingStatus(fields)) == Some("未知")
    ensures Translate(AdminTable, WorkingStatus(fields)) == Some("未知")
    ensures Heartbeat(fields) == "未知时间"
  {
  }
}

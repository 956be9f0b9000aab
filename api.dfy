/** The request/response vocabulary shared by every command handler: what is
    sent to the TurboNET API, what comes back, and what the handler answers. */
module Api {
  import opened Wrappers
  import opened PyText
  import opened JsonValue

  datatype HttpMethod = GET | POST

  /** One call against the configured API base URL (the base itself is configuration). */
  datatype Request = Request(
    verb: HttpMethod,
    path: string,
    query: seq<(string, string)>,
    body: Option<Json>,
    headers: map<string, string>)

  /** The body of an HTTP response: its raw text, and what `resp.json()` gives
      (None when decoding raises). */
  datatype Body = Body(text: string, json: Option<Json>)

  /** What the HTTP client yields: an `httpx.RequestError` with its message, or a status and body. */
  datatype Response =
    | TransportError(cause: string)
    | Http(status: int, body: Body)

  /** How a handler ends once its request went out: a message, or an exception
      the handler does not catch (the bot then sends nothing). */
  datatype After = Say(text: string) | Crash

  /** The code a handler runs once its response arrives, with what it keeps
      from before the request: the name asked for, the multiplier, the code.
      Each module defines what its endings do; `Commands.Finish` puts them together. */
  datatype Ending =
    | BindEnding
    | MaiEnding(turboName: string)
    | StatusEnding
    | SetEnding(ticket: int)
    | NorunEnding
    | GetrunEnding
    | NetEnding
    | ArcadeEnding(code: string)

  /** A handler either answers without touching the network, or issues exactly
      one request and then runs `ending` on whatever comes back. */
  datatype Outcome =
    | Reply(text: string)
    | Call(req: Request, ending: Ending)

  /** `"\n".join(lines)`. */
  function Join(lines: seq<string>): string {
    JoinWith("\n", lines)
  }

  /** The message of an API error body: `err.get("message") or str(err)` when the
      body decodes to a dict, and the raw response text otherwise (decoding
      failed, or `.get` raised on a non-dict). */
  function ErrorMessage(body: Body): string {
    match body.json
    case Some(JObj(fs)) =>
      var m := Get(fs, "message");
      if Truthy(m) then PyStr(m) else PyStr(JObj(fs))
    case _ => body.text
  }

  /** What an error body shows: a non-empty text `message` as it is; a dict
      without one as `str()` of the dict (`{}` when empty); the raw text when
      the body does not decode to a dict. */
  lemma ErrorMessageCases(text: string, fs: seq<(string, Json)>, m: string)
    ensures Get(fs, "message") == JStr(m) && m != "" ==> ErrorMessage(Body(text, Some(JObj(fs)))) == m
    ensures (forall k :: 0 <= k < |fs| ==> fs[k].0 != "message") ==> ErrorMessage(Body(text, Some(JObj(fs)))) == PyStr(JObj(fs))
    ensures ErrorMessage(Body(text, Some(JObj([])))) == "{}"
    ensures ErrorMessage(Body(text, None)) == text
    ensures ErrorMessage(Body(text, Some(JArr([])))) == text
    ensures ErrorMessage(Body(text, Some(JStr(m)))) == text
  {
    assert ReprFields(JObj([]), 0) == "";
  }

  /** The two failure replies every guarded request shares: a transport failure
      gives `"<prefix>：<cause>"`, a status other than 200 gives
      `"<path> 返回异常（HTTP <status>）：<message><hint>"`. None for a 200. */
  function Failure(resp: Response, prefix: string, path: string, hint: string): (r: Option<string>)
    ensures r.None? <==> resp.Http? && resp.status == 200
    ensures resp.TransportError? ==> r == Some(prefix + "：" + resp.cause)
    ensures resp.Http? && resp.status != 200 ==>
      r == Some(path + " 返回异常（HTTP " + IntText(resp.status) + "）：" + ErrorMessage(resp.body) + hint)
  {
    match resp
    case TransportError(cause) => Some(prefix + "：" + cause)
    case Http(status, body) =>
      if status != 200 then Some(path + " 返回异常（HTTP " + IntText(status) + "）：" + ErrorMessage(body) + hint)
      else None
  }

  const NotBoundLead: string := "你还没有绑定 BotKey，"

  /** The reply to a user whose QQ has no BotKey: what cannot be done, and the
      advice to bind first. */
  function NotBound(what: string): (r: string)
    ensures StartsWith(r, NotBoundLead)
  {
    ConcatStartsWith(NotBoundLead, what);
    ConcatStartsWith(NotBoundLead + what, "\n请先使用：/bind <你的botToken>");
    StartsWithTrans(NotBoundLead + what + "\n请先使用：/bind <你的botToken>", NotBoundLead + what, NotBoundLead);
    NotBoundLead + what + "\n请先使用：/bind <你的botToken>"
  }

  /** The reply when the administrator's QQ has no BotKey. */
  function AdminNotBound(what: string): string {
    "管理员尚未绑定 BotKey，" + what + "\n请管理员先使用：/bind <管理员botToken>"
  }

  const AdminMissing: string := "管理员 QQ 未配置，请在 .env 中设置 SYSALLNET_ADMIN_QQ"

  // ---------------------------------------------------------------- rendering lists

  /** The length of `xs[:cap]`. */
  function Min(a: int, b: int): int {
    if a <= b then a else b
  }

  /** A `for` loop over `xs` that appends one line per element, numbered from
      `first` as `enumerate(xs, start=first)` does; `entry` gives None when
      rendering that element raises, which ends the whole loop. */
  function Numbered(xs: seq<Json>, first: int, entry: (int, Json) -> Option<string>): Option<seq<string>>
    decreases |xs|
  {
    if xs == [] then Some([])
    else match entry(first, xs[0])
      case None => None
      case Some(line) =>
        match Numbered(xs[1..], first + 1, entry)
        case None => None
        case Some(rest) => Some([line] + rest)
  }

  /** The loop succeeds exactly when every element renders, and then its lines
      are the elements' lines, one each, in the order of `xs`. */
  lemma {:induction false} NumberedLines(xs: seq<Json>, first: int, entry: (int, Json) -> Option<string>)
    ensures Numbered(xs, first, entry).Some? <==> forall k :: 0 <= k < |xs| ==> entry(first + k, xs[k]).Some?
    ensures Numbered(xs, first, entry).Some? ==>
      var lines := Numbered(xs, first, entry).value;
      |lines| == |xs| && forall k :: 0 <= k < |xs| ==> Some(lines[k]) == entry(first + k, xs[k])
    decreases |xs|
  {
    if xs != [] {
      NumberedLines(xs[1..], first + 1, entry);
      assert forall k :: 1 <= k < |xs| ==> xs[1..][k - 1] == xs[k];
      if forall k :: 0 <= k < |xs| ==> entry(first + k, xs[k]).Some? {
        assert forall k :: 0 <= k < |xs[1..]| ==> entry(first + 1 + k, xs[1..][k]).Some? by {
          forall k | 0 <= k < |xs[1..]| ensures entry(first + 1 + k, xs[1..][k]).Some? {
            assert xs[1..][k] == xs[k + 1];
          }
        }
      }
      if Numbered(xs, first, entry).Some? {
        var lines := Numbered(xs, first, entry).value;
        var rest := Numbered(xs[1..], first + 1, entry).value;
        assert lines == [lines[0]] + rest;
        forall k | 1 <= k < |xs| ensures Some(lines[k]) == entry(first + k, xs[k]) {
          assert lines[k] == rest[k - 1];
          assert xs[1..][k - 1] == xs[k];
        }
      }
    }
  }

  /** The loop over `xs[:cap]`: it succeeds exactly when each of the first
      min(cap, n) elements renders, and then gives their lines in order. */
  lemma NumberedFirst(xs: seq<Json>, cap: nat, first: int, entry: (int, Json) -> Option<string>)
    ensures var r := Numbered(xs[..Min(cap, |xs|)], first, entry);
      && (r.Some? <==> forall k :: 0 <= k < Min(cap, |xs|) ==> entry(first + k, xs[k]).Some?)
      && (r.Some? ==>
           |r.value| == Min(cap, |xs|)
           && forall k :: 0 <= k < Min(cap, |xs|) ==> Some(r.value[k]) == entry(first + k, xs[k]))
  {
    var shown := xs[..Min(cap, |xs|)];
    NumberedLines(shown, first, entry);
    assert forall k :: 0 <= k < |shown| ==> shown[k] == xs[k];
  }

  /** The loop itself: `out` grows by one line per element, and the first
      element that fails to render ends it with None. */
  method RenderNumbered(xs: seq<Json>, first: int, entry: (int, Json) -> Option<string>) returns (r: Option<seq<string>>)
    ensures r == Numbered(xs, first, entry)
  {
    var out: seq<string> := [];
    for i := 0 to |xs|
      invariant |out| == i
      invariant forall k :: 0 <= k < i ==> entry(first + k, xs[k]) == Some(out[k])
    {
      var line := entry(first + i, xs[i]);
      if line.None? {
        NumberedLines(xs, first, entry);
        return None;
      }
      out := out + [line.value];
    }
    NumberedLines(xs, first, entry);
    assert Numbered(xs, first, entry).value == out;
    r := Some(out);
  }
}

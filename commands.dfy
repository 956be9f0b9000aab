/** The plugin's commands side by side: which handler a message reaches, and
    what holds across all of them about keys and requests. */
module Commands {
  import opened Wrappers
  import opened PyText
  import opened JsonValue
  import opened Credentials
  import opened Api
  import Bind
  import Profile
  import NetworkStatus
  import Tickets
  import Arcade

  /** A message the plugin reacts to, with its argument text. `Text` is any
      other message, which only the `<机厅代号>j` trigger may pick up. */
  datatype Command =
    | BindCmd(args: string)
    | Mai(args: string)
    | Status
    | Run(args: string)
    | Go
    | Norun
    | Getrun
    | Net
    | Text(text: string)

  /** The commands answered with the caller's own key. */
  predicate UsesCallerKey(c: Command) {
    c.Mai? || c.Status? || c.Run? || c.Go? || c.Norun? || c.Getrun?
  }

  /** What the plugin does for `cmd` from `sender`, given the key table, the
      configured administrator QQ and the response its request would get.
      None when no handler fires. */
  function Dispatch(keys: map<string, string>, adminConfig: string, sender: string, cmd: Command): Option<Outcome> {
    match cmd
    case BindCmd(args) => Some(Bind.HandleBind(args))
    case Mai(args) => Some(Profile.HandleMai(keys, sender, args))
    case Status => Some(NetworkStatus.HandleStatus(keys, sender))
    case Run(args) => Some(Tickets.HandleRun(keys, sender, args))
    case Go => Some(Tickets.HandleGo(keys, sender))
    case Norun => Some(Tickets.HandleNorun(keys, sender))
    case Getrun => Some(Tickets.HandleGetrun(keys, sender))
    case Net => Some(NetworkStatus.HandleNet(keys, adminConfig))
    case Text(text) => Arcade.HandleArcadeDetail(keys, adminConfig, text)
  }

  /** What the handler that issued a request does with its response. */
  function Finish(ending: Ending, resp: Response): After {
    match ending
    case BindEnding => Bind.BindAfter(resp)
    case MaiEnding(name) => Profile.MaiAfter(name, resp)
    case StatusEnding => NetworkStatus.StatusAfter(resp)
    case SetEnding(ticket) => Tickets.SetAfter(ticket, resp)
    case NorunEnding => Tickets.NorunAfter(resp)
    case GetrunEnding => Tickets.GetrunAfter(resp)
    case NetEnding => NetworkStatus.NetAfter(resp)
    case ArcadeEnding(code) => Arcade.ArcadeAfter(code, resp)
  }

  /** How a handler ends: its direct reply, or what its ending makes of the response. */
  function Answer(o: Outcome, resp: Response): After {
    match o
    case Reply(text) => Say(text)
    case Call(_, ending) => Finish(ending, resp)
  }

  /** The table after `cmd`, whose request (if any) got `resp`: only a bind
      that sent its request and got a key back changes it, and only the
      sender's entry. */
  function KeysAfter(keys: map<string, string>, sender: string, cmd: Command, resp: Response): map<string, string> {
    match cmd
    case BindCmd(args) =>
      if AllSpace(args) then keys
      else
        (match Bind.ReturnedKey(resp)
         case Some(k) => keys[sender := k]
         case None => keys)
    case _ => keys
  }

  /** The bot handling one message against its table, its request (if any)
      answered with `resp`. */
  method Handle(store: CredentialStore, adminConfig: string, sender: string, cmd: Command, resp: Response)
    returns (o: Option<Outcome>)
    modifies store
    ensures o == Dispatch(old(store.keys), adminConfig, sender, cmd)
    ensures store.keys == KeysAfter(old(store.keys), sender, cmd, resp)
  {
    if cmd.BindCmd? {
      Bind.BindSendsToken(cmd.args);
      var out := Bind.Bind(store, sender, cmd.args, resp);
      o := Some(out);
    } else {
      o := Dispatch(store.keys, adminConfig, sender, cmd);
    }
  }

  // ---------------------------------------------------------------- properties

  /** Every command but the trigger fires a handler. */
  lemma CommandsAlwaysAnswer(keys: map<string, string>, adminConfig: string, sender: string, cmd: Command)
    ensures Dispatch(keys, adminConfig, sender, cmd).None? ==>
      cmd.Text? && Arcade.ArcadeCode(cmd.text).None?
  {
    match cmd {
      case Text(_) =>
      case _ =>
    }
  }

  /** A caller without a key never causes a request through a command that
      needs their key: the reply is the bind-first message, except for a `/mai`
      without argument, which gets its usage text first. */
  lemma NoKeyNoRequest(keys: map<string, string>, adminConfig: string, sender: string, cmd: Command)
    requires UsesCallerKey(cmd)
    requires sender !in keys || keys[sender] == ""
    ensures Dispatch(keys, adminConfig, sender, cmd).Some?
    ensures Dispatch(keys, adminConfig, sender, cmd).value.Reply?
    ensures cmd.Mai? && AllSpace(cmd.args) ==> Dispatch(keys, adminConfig, sender, cmd).value.text == Profile.MaiUsage
    ensures !(cmd.Mai? && AllSpace(cmd.args)) ==> StartsWith(Dispatch(keys, adminConfig, sender, cmd).value.text, NotBoundLead)
  {
    if cmd.Mai? {
      StripEmpty(cmd.args);
    }
  }

  /** `/bind` sends its request without any header. */
  lemma BindSendsNoHeader(keys: map<string, string>, adminConfig: string, sender: string, args: string)
    requires Dispatch(keys, adminConfig, sender, BindCmd(args)).value.Call?
    ensures Dispatch(keys, adminConfig, sender, BindCmd(args)).value.req.headers == map[]
  {
    Bind.BindSendsToken(args);
  }

  /** A request of a command answered with the caller's key carries exactly one
      header, `Authorization: BotKey <key>`, with the caller's non-empty key. */
  lemma CallerKeyHeader(keys: map<string, string>, adminConfig: string, sender: string, cmd: Command)
    requires UsesCallerKey(cmd)
    requires Dispatch(keys, adminConfig, sender, cmd).value.Call?
    ensures sender in keys && keys[sender] != ""
    ensures Dispatch(keys, adminConfig, sender, cmd).value.req.headers == map["Authorization" := "BotKey " + keys[sender]]
  {
  }

  /** A request of `/net` or of the trigger carries the administrator's header:
      the administrator is configured and has a non-empty key. */
  lemma AdminKeyHeader(keys: map<string, string>, adminConfig: string, sender: string, cmd: Command)
    requires cmd.Net? || cmd.Text?
    requires Dispatch(keys, adminConfig, sender, cmd).Some?
    requires Dispatch(keys, adminConfig, sender, cmd).value.Call?
    ensures var admin := Strip(adminConfig);
      && admin != "" && admin in keys && keys[admin] != ""
      && Dispatch(keys, adminConfig, sender, cmd).value.req.headers == map["Authorization" := "BotKey " + keys[admin]]
  {
  }

  /** A bind with an argument sends the exchange for its first word, and ends
      with `handle_bind`'s own reply. */
  lemma BindDispatch(keys: map<string, string>, adminConfig: string, sender: string, args: string)
    requires !AllSpace(args)
    ensures Dispatch(keys, adminConfig, sender, BindCmd(args))
      == Some(Call(Bind.BindRequest(FirstWord(Strip(args))), BindEnding))
  {
    StripEmpty(args);
  }

  /** That reply is 绑定成功！ exactly when the table now holds the returned key
      for the sender; otherwise the table is unchanged. */
  lemma BindAnswerMatchesTable(keys: map<string, string>, sender: string, args: string, resp: Response)
    requires !AllSpace(args)
    ensures Bind.IsConfirmation(Finish(BindEnding, resp)) <==> Bind.ReturnedKey(resp).Some?
    ensures Bind.ReturnedKey(resp).Some? ==>
      KeysAfter(keys, sender, BindCmd(args), resp) == keys[sender := Bind.ReturnedKey(resp).value]
    ensures Bind.ReturnedKey(resp).None? ==> KeysAfter(keys, sender, BindCmd(args), resp) == keys
  {
    Bind.BindConfirmsIffStored(resp);
  }

  /** The administrator's commands answer the same whoever sends them. */
  lemma AdminCommandsIgnoreSender(keys: map<string, string>, adminConfig: string, s1: string, s2: string, cmd: Command)
    requires cmd.Net? || cmd.Text?
    ensures Dispatch(keys, adminConfig, s1, cmd) == Dispatch(keys, adminConfig, s2, cmd)
  {
  }

  /** Only `/bind` writes the table, and only the sender's entry. */
  lemma OnlyBindWrites(keys: map<string, string>, sender: string, other: string, cmd: Command, resp: Response)
    requires other != sender
    ensures !cmd.BindCmd? ==> KeysAfter(keys, sender, cmd, resp) == keys
    ensures Lookup(KeysAfter(keys, sender, cmd, resp), other) == Lookup(keys, other)
  {
  }

  /** Once a bind stores a key, the sender's next `/run X` goes out under that key. */
  lemma BindThenRun(keys: map<string, string>, sender: string, token: string, bindResp: Response, args: string)
    requires !AllSpace(token) && Bind.ReturnedKey(bindResp).Some?
    requires Dispatch(KeysAfter(keys, sender, BindCmd(token), bindResp), "", sender, Run(args)).value.Call?
    ensures Dispatch(KeysAfter(keys, sender, BindCmd(token), bindResp), "", sender, Run(args)).value.req.headers
      == map["Authorization" := "BotKey " + Bind.ReturnedKey(bindResp).value]
  {
    Bind.BindStoresOnlyOnSuccess(bindResp);
    var k := Bind.ReturnedKey(bindResp).value;
    var after := KeysAfter(keys, sender, BindCmd(token), bindResp);
    assert after == keys[sender := k];
    CallerKeyHeader(after, "", sender, Run(args));
  }
}

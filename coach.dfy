/**
 * What the command handlers of the two entrypoints do to the database and what
 * they reply, as functions of the database contents. `WebApp` is the webhook
 * application (app/main.py), `PollingBot` the long-polling bot (bot/bot.py);
 * they share every handler except `/start`'s welcome text and the order of the
 * two steps of `/log`.
 */
module Coach {
  import opened Wrappers
  import opened Strings
  import opened Db

  datatype Entrypoint = WebApp | PollingBot

  /**
   * An inbound message once the Telegram library has classified it: a bot
   * command with its whitespace-separated arguments, or plain text.
   */
  datatype Message = Command(name: string, args: seq<string>) | Text(text: string)

  /** The database after a handler ran, and the one reply it sent. */
  datatype Outcome = Outcome(tables: Tables, reply: string)

  const WELCOME_APP: string :=
    "\U{1F44B} Hi! I\U{2019}m your accountability coach.\n"
    + "Use /log <what you ate/did> (e.g., /log 2 eggs + dal).\n"
    + "Try /status to see your count."
  const WELCOME_BOT: string :=
    "\U{1F44B} Hi! I\U{2019}m your accountability coach.\n"
    + "Use /log <what you ate/did> (e.g., /log 2 eggs + dal).\n"
    + "Try /status to see how many entries you\U{2019}ve logged."
  const PONG: string := "pong"
  const USAGE: string := "Usage: /log 2 eggs + dal + rice"
  const NO_USER: string := "Send /start first."
  const FALLBACK: string := "I understand: /start, /ping, /log, /status"
  const SAVED_PREFIX: string := "\U{2705} Saved log: "
  const STATUS_PREFIX: string := "\U{1F4CA} You\U{2019}ve logged "
  const STATUS_SUFFIX: string := " entries."

  /** The command names with a registered `CommandHandler`. */
  const COMMANDS: set<string> := {"start", "ping", "log", "status"}

  /** The argument separator of `" ".join(context.args)`. */
  const SPACE: string := " "

  /** The welcome text of `start`; the two entrypoints word its last line differently. */
  function Welcome(e: Entrypoint): (r: string)
    ensures r == WELCOME_APP <==> e == WebApp
  {
    assert |WELCOME_APP| != |WELCOME_BOT|;
    match e
    case WebApp => WELCOME_APP
    case PollingBot => WELCOME_BOT
  }

  /** The confirmation `f"✅ Saved log: {text}"`. */
  function Saved(text: string): (r: string)
    ensures |r| >= |SAVED_PREFIX| && r[..|SAVED_PREFIX|] == SAVED_PREFIX
    ensures r[|SAVED_PREFIX|..] == text
  {
    SAVED_PREFIX + text
  }

  /** The status reply `f"📊 You’ve logged {count} entries."`. */
  function StatusLine(n: nat): (r: string)
    ensures |r| > |STATUS_PREFIX| + |STATUS_SUFFIX|
    ensures r[..|STATUS_PREFIX|] == STATUS_PREFIX && r[|r| - |STATUS_SUFFIX|..] == STATUS_SUFFIX
    ensures var shown := r[|STATUS_PREFIX|..|r| - |STATUS_SUFFIX|];
      IsDecimal(shown) && DecimalValue(shown) == n
  {
    var r := STATUS_PREFIX + NatToString(n) + STATUS_SUFFIX;
    assert r[|STATUS_PREFIX|..|r| - |STATUS_SUFFIX|] == NatToString(n);
    DecimalRoundTrip(n);
    r
  }

  /** A status reply determines the count it reports. */
  lemma StatusLineInjective(a: nat, b: nat)
    ensures StatusLine(a) == StatusLine(b) ==> a == b
  {
  }

  /**
   * `upsert_user(chat_id)`: get-or-create by chat id. An existing row is returned
   * and nothing is written; otherwise exactly one row is added for the chat.
   */
  function Upsert(t: Tables, chat: ChatId): (r: (Tables, User))
    requires Consistent(t)
    ensures Consistent(r.0) && Extends(t, r.0) && r.0.logs == t.logs
    ensures chat in r.0.users && r.0.users[chat] == r.1 && r.1.tgChatId == chat
    ensures chat in t.users ==> r == (t, t.users[chat])
    ensures chat !in t.users ==>
      && r.0.users == t.users[chat := r.1]
      && r.1.tz == DEFAULT_TZ
      && (forall c | c in t.users :: t.users[c].id != r.1.id)
  {
    match Lookup(t, chat)
    case Some(u) => (t, u)
    case None => InsertUser(t, chat)
  }

  /** `start`: upsert the chat's user, then the welcome text. */
  function Start(e: Entrypoint, t: Tables, chat: ChatId): (r: Outcome)
    requires Consistent(t)
    ensures Consistent(r.tables) && Extends(t, r.tables) && r.tables.logs == t.logs
    ensures chat in r.tables.users && r.reply == Welcome(e)
    ensures chat in t.users ==> r.tables == t
  {
    Outcome(Upsert(t, chat).0, Welcome(e))
  }

  /** Append one row for `user` (already in `t`) and confirm it. */
  function Save(t: Tables, user: User, text: string): (r: Outcome)
    requires Consistent(t) && user.tgChatId in t.users && t.users[user.tgChatId] == user
    ensures Consistent(r.tables) && Extends(t, r.tables)
    ensures r.tables.users == t.users
    ensures |r.tables.logs| == |t.logs| + 1
    ensures r.tables.logs[|t.logs|].userId == user.id && r.tables.logs[|t.logs|].textLog == text
  {
    assert HasUserId(t, user.id) by {
      assert t.users[user.tgChatId].id == user.id;
    }
    Outcome(InsertLog(t, user.id, text), Saved(text))
  }

  /**
   * What a successful `/log` of `text` from `chat` does to `t`: the chat's user
   * is upserted, exactly one row with that user's id and the text is appended,
   * and the text is echoed.
   */
  ghost predicate Saves(t: Tables, chat: ChatId, text: string, r: Outcome)
    requires Consistent(t)
  {
    var t1 := Upsert(t, chat).0;
    && r.tables.users == t1.users
    && chat in r.tables.users
    && |r.tables.logs| == |t.logs| + 1
    && r.tables.logs[..|t.logs|] == t.logs
    && r.tables.logs[|t.logs|].userId == r.tables.users[chat].id
    && r.tables.logs[|t.logs|].textLog == text
    && r.reply == Saved(text)
  }

  /** `log_cmd` of app/main.py: validate the text first, and only then upsert. */
  function LogApp(t: Tables, chat: ChatId, args: seq<string>): (r: Outcome)
    requires Consistent(t)
    ensures Consistent(r.tables) && Extends(t, r.tables)
    ensures |r.tables.logs| <= |t.logs| + 1
    ensures Join(args, SPACE) == "" ==> r == Outcome(t, USAGE)
    ensures Join(args, SPACE) != "" ==> Saves(t, chat, Join(args, SPACE), r)
  {
    var text := Join(args, SPACE);
    if text == "" then Outcome(t, USAGE)
    else
      var (t1, user) := Upsert(t, chat);
      Save(t1, user, text)
  }

  /** `log_cmd` of bot/bot.py: upsert first, then validate the text. */
  function LogBot(t: Tables, chat: ChatId, args: seq<string>): (r: Outcome)
    requires Consistent(t)
    ensures Consistent(r.tables) && Extends(t, r.tables)
    ensures |r.tables.logs| <= |t.logs| + 1
    ensures chat in r.tables.users
    ensures Join(args, SPACE) == "" ==> r == Outcome(Upsert(t, chat).0, USAGE)
    ensures Join(args, SPACE) != "" ==> Saves(t, chat, Join(args, SPACE), r)
  {
    var (t1, user) := Upsert(t, chat);
    var text := Join(args, SPACE);
    if text == "" then Outcome(t1, USAGE)
    else Save(t1, user, text)
  }

  /** `status_cmd`: guidance when the chat has no user, otherwise the count of its rows. */
  function Status(t: Tables, chat: ChatId): (r: string)
    requires Consistent(t)
    ensures r == NO_USER <==> chat !in t.users
  {
    match Lookup(t, chat)
    case None => NO_USER
    case Some(user) =>
      var line := StatusLine(Count(t.logs, user.id));
      assert line[0] != NO_USER[0];
      line
  }

  /**
   * The handler registrations: the four `CommandHandler`s and the
   * `MessageHandler(filters.TEXT & ~filters.COMMAND, fallback)`. A command with
   * any other name matches no handler (`None`).
   */
  function Step(e: Entrypoint, t: Tables, chat: ChatId, m: Message): (r: Option<Outcome>)
    requires Consistent(t)
    ensures r.None? <==> m.Command? && m.name !in COMMANDS
    ensures r.Some? ==> Consistent(r.value.tables) && Extends(t, r.value.tables)
    ensures r.Some? ==> |r.value.tables.logs| <= |t.logs| + 1
  {
    match m
    case Text(_) => Some(Outcome(t, FALLBACK))
    case Command(name, args) =>
      if name == "start" then Some(Start(e, t, chat))
      else if name == "ping" then Some(Outcome(t, PONG))
      else if name == "log" then
        Some(match e
             case WebApp => LogApp(t, chat, args)
             case PollingBot => LogBot(t, chat, args))
      else if name == "status" then Some(Outcome(t, Status(t, chat)))
      else None
  }

  /** The webhook's answer to the HTTP request. */
  datatype HttpResponse =
    | Unauthorized  // HTTPException(status_code=401, detail="bad secret")
    | Ok            // {"ok": True}

  /** The database after a webhook request, its HTTP answer and the chat reply, if any. */
  datatype Delivery = Delivery(tables: Tables, response: HttpResponse, reply: Option<string>)

  /**
   * The secret check of `telegram_webhook`: an empty configured secret admits
   * every request, otherwise the header must be present and equal to it.
   */
  predicate SecretAccepted(secret: string, header: Option<string>)
    ensures secret == "" ==> SecretAccepted(secret, header)
    ensures secret != "" ==> (SecretAccepted(secret, header) <==> header == Some(secret))
  {
    !(secret != "" && header != Some(secret))
  }

  /** `telegram_webhook`: check the secret, then hand the update to the registrations. */
  function Webhook(t: Tables, secret: string, header: Option<string>, chat: ChatId, m: Message): (r: Delivery)
    requires Consistent(t)
    ensures Consistent(r.tables) && Extends(t, r.tables)
    ensures r.response == Unauthorized <==> secret != "" && header != Some(secret)
    ensures r.response == Unauthorized ==> r.tables == t && r.reply == None
  {
    if !SecretAccepted(secret, header) then Delivery(t, Unauthorized, None)
    else
      match Step(WebApp, t, chat, m)
      case None => Delivery(t, Ok, None)
      case Some(o) => Delivery(o.tables, Ok, Some(o.reply))
  }
}

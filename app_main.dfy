/**
 * The webhook application (app/main.py): its handlers as methods over the
 * shared `Store`, the handler registrations, and the webhook endpoint. Each
 * method follows the statements of its Python counterpart and is proved
 * against the matching function of `Coach`.
 */
module AppMain {
  import opened Wrappers
  import opened Strings
  import opened Db
  import opened Coach

  /** `upsert_user`: look the chat up, and add a user only when there is none. */
  method UpsertUser(db: Store, chat: ChatId) returns (user: User)
    requires db.Valid()
    modifies db
    ensures db.Valid()
    ensures (db.Snapshot(), user) == Upsert(old(db.Snapshot()), chat)
  {
    var found := db.FindUser(chat);
    if found.None? {
      user := db.AddUser(chat);
    } else {
      user := found.value;
    }
  }

  /** `start`. */
  method Start(db: Store, chat: ChatId) returns (reply: string)
    requires db.Valid()
    modifies db
    ensures db.Valid()
    ensures Outcome(db.Snapshot(), reply) == Coach.Start(WebApp, old(db.Snapshot()), chat)
  {
    var _ := UpsertUser(db, chat);
    reply := WELCOME_APP;
  }

  /** `ping`: it has no access to the database. */
  method Ping() returns (reply: string)
    ensures reply == PONG
  {
    reply := PONG;
  }

  /** `log_cmd`: the empty text is answered before the user is upserted. */
  method LogCmd(db: Store, chat: ChatId, args: seq<string>) returns (reply: string)
    requires db.Valid()
    modifies db
    ensures db.Valid()
    ensures Outcome(db.Snapshot(), reply) == LogApp(old(db.Snapshot()), chat, args)
  {
    var text := Join(args, SPACE);
    if text == "" {
      reply := USAGE;
      return;
    }
    var user := UpsertUser(db, chat);
    db.AddLog(user.id, text);
    reply := Saved(text);
  }

  /** `status_cmd`: reads only. */
  method StatusCmd(db: Store, chat: ChatId) returns (reply: string)
    requires db.Valid()
    ensures reply == Status(db.Snapshot(), chat)
    ensures reply == NO_USER <==> chat !in db.users
  {
    var user := db.FindUser(chat);
    if user.None? {
      reply := NO_USER;
      return;
    }
    var count := db.CountLogs(user.value.id);
    reply := StatusLine(count);
  }

  /** `fallback`. */
  method Fallback() returns (reply: string)
    ensures reply == FALLBACK
  {
    reply := FALLBACK;
  }

  /**
   * The `add_handler` registrations: each registered command name to its
   * handler, non-command text to `fallback`, and nothing for any other command.
   */
  method Dispatch(db: Store, chat: ChatId, m: Message) returns (reply: Option<string>)
    requires db.Valid()
    modifies db
    ensures db.Valid()
    ensures var r := Step(WebApp, old(db.Snapshot()), chat, m);
      && (r.None? ==> reply.None? && db.Snapshot() == old(db.Snapshot()))
      && (r.Some? ==> reply == Some(r.value.reply) && db.Snapshot() == r.value.tables)
  {
    match m {
      case Text(_) =>
        var s := Fallback();
        reply := Some(s);
      case Command(name, args) =>
        if name == "start" {
          var s := Start(db, chat);
          reply := Some(s);
        } else if name == "ping" {
          var s := Ping();
          reply := Some(s);
        } else if name == "log" {
          var s := LogCmd(db, chat, args);
          reply := Some(s);
        } else if name == "status" {
          var s := StatusCmd(db, chat);
          reply := Some(s);
        } else {
          reply := None;
        }
    }
  }

  /**
   * `telegram_webhook`: with a configured secret and a missing or different
   * header the request is refused with 401 before the update is looked at;
   * otherwise the update is dispatched and `{"ok": True}` is answered.
   */
  method TelegramWebhook(db: Store, secret: string, header: Option<string>, chat: ChatId, m: Message)
    returns (response: HttpResponse, reply: Option<string>)
    requires db.Valid()
    modifies db
    ensures db.Valid()
    ensures Delivery(db.Snapshot(), response, reply) == Webhook(old(db.Snapshot()), secret, header, chat, m)
  {
    if !SecretAccepted(secret, header) {
      return Unauthorized, None;
    }
    reply := Dispatch(db, chat, m);
    response := Ok;
  }
}

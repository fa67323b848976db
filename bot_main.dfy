/**
 * The polling bot (bot/bot.py): its handlers as methods over the shared
 * `Store` and the handler registrations of `main`. Each method follows the
 * statements of its Python counterpart and is proved against the matching
 * function of `Coach`.
 */
module BotMain {
  import opened Wrappers
  import opened Strings
  import opened Db
  import opened Coach

  /** `upsert_user`: "Create the user if not exists, else return existing." */
  method UpsertUser(db: Store, chat: ChatId) returns (user: User)
    requires db.Valid()
    modifies db
    ensures db.Valid()
    ensures (db.Snapshot(), user) == Upsert(old(db.Snapshot()), chat)
  {
    var found := db.FindUser(chat);
    if found.None? {
      user := db.AddUser(chat);
    } else {
      user := found.value;
    }
  }

  /** `start`. */
  method Start(db: Store, chat: ChatId) returns (reply: string)
    requires db.Valid()
    modifies db
    ensures db.Valid()
    ensures Outcome(db.Snapshot(), reply) == Coach.Start(PollingBot, old(db.Snapshot()), chat)
  {
    var _ := UpsertUser(db, chat);
    reply := WELCOME_BOT;
  }

  /** `ping`: it has no access to the database. */
  method Ping() returns (reply: string)
    ensures reply == PONG
  {
    reply := PONG;
  }

  /** `log_cmd`: the user is upserted before the text is checked. */
  method LogCmd(db: Store, chat: ChatId, args: seq<string>) returns (reply: string)
    requires db.Valid()
    modifies db
    ensures db.Valid()
    ensures Outcome(db.Snapshot(), reply) == LogBot(old(db.Snapshot()), chat, args)
  {
    var user := UpsertUser(db, chat);
    var text := Join(args, SPACE);
    if text == "" {
      reply := USAGE;
      return;
    }
    db.AddLog(user.id, text);
    reply := Saved(text);
  }

  /** `status_cmd`: reads only. */
  method StatusCmd(db: Store, chat: ChatId) returns (reply: string)
    requires db.Valid()
    ensures reply == Status(db.Snapshot(), chat)
    ensures reply == NO_USER <==> chat !in db.users
  {
    var user := db.FindUser(chat);
    if user.None? {
      reply := NO_USER;
      return;
    }
    var count := db.CountLogs(user.value.id);
    reply := StatusLine(count);
  }

  /** `fallback`. */
  method Fallback() returns (reply: string)
    ensures reply == FALLBACK
  {
    reply := FALLBACK;
  }

  /**
   * The `add_handler` registrations of `main`: each registered command name to
   * its handler, non-command text to `fallback`, nothing for any other command.
   */
  method Dispatch(db: Store, chat: ChatId, m: Message) returns (reply: Option<string>)
    requires db.Valid()
    modifies db
    ensures db.Valid()
    ensures var r := Step(PollingBot, old(db.Snapshot()), chat, m);
      && (r.None? ==> reply.None? && db.Snapshot() == old(db.Snapshot()))
      && (r.Some? ==> reply == Some(r.value.reply) && db.Snapshot() == r.value.tables)
  {
    match m {
      case Text(_) =>
        var s := Fallback();
        reply := Some(s);
      case Command(name, args) =>
        if name == "start" {
          var s := Start(db, chat);
          reply := Some(s);
        } else if name == "ping" {
          var s := Ping();
          reply := Some(s);
        } else if name == "log" {
          var s := LogCmd(db, chat, args);
          reply := Some(s);
        } else if name == "status" {
          var s := StatusCmd(db, chat);
          reply := Some(s);
        } else {
          reply := None;
        }
    }
  }
}

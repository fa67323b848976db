/**
 * What the handlers promise, stated over `Coach.Step` (the handler
 * registrations) and proved for both entrypoints, followed by the places where
 * the webhook application and the polling bot behave differently.
 */
module Properties {
  import opened Wrappers
  import opened Strings
  import opened Db
  import opened Coach

  /** Upserting the same chat twice yields the same user and writes nothing the second time. */
  lemma UpsertIdempotent(t: Tables, chat: ChatId)
    requires Consistent(t)
    ensures var (t1, u1) := Upsert(t, chat); Upsert(t1, chat) == (t1, u1)
  {
  }

  /** `/start` leaves a user for the chat, writes no log row and sends the welcome text. */
  lemma StartEnsuresUser(e: Entrypoint, t: Tables, chat: ChatId, args: seq<string>)
    requires Consistent(t)
    ensures var r := Step(e, t, chat, Command("start", args));
      && r.Some? && r.value.reply == Welcome(e)
      && chat in r.value.tables.users && r.value.tables.logs == t.logs
      && (chat in t.users ==> r.value.tables == t)
  {
  }

  /** A redelivered `/start` changes nothing further. */
  lemma StartRedelivered(e: Entrypoint, t: Tables, chat: ChatId, args: seq<string>)
    requires Consistent(t)
    ensures var r := Step(e, t, chat, Command("start", args));
      r.Some? && Step(e, r.value.tables, chat, Command("start", args)) == r
  {
  }

  /** `/ping` replies "pong" and leaves the database as it was. */
  lemma PingPong(e: Entrypoint, t: Tables, chat: ChatId, args: seq<string>)
    requires Consistent(t)
    ensures Step(e, t, chat, Command("ping", args)) == Some(Outcome(t, PONG))
  {
  }

  /** Text that is not a command gets the fallback reply, whatever the chat's state. */
  lemma TextFallsBack(e: Entrypoint, t: Tables, chat: ChatId, s: string)
    requires Consistent(t)
    ensures Step(e, t, chat, Text(s)) == Some(Outcome(t, FALLBACK))
  {
  }

  /** A command nobody registered is handled by no handler: no reply and no write. */
  lemma UnregisteredCommandIgnored(e: Entrypoint, t: Tables, chat: ChatId, name: string, args: seq<string>)
    requires Consistent(t)
    requires name !in COMMANDS
    ensures Step(e, t, chat, Command(name, args)) == None
  {
  }

  /** `/status` for a chat without a user sends the guidance and writes nothing. */
  lemma StatusWithoutUser(e: Entrypoint, t: Tables, chat: ChatId, args: seq<string>)
    requires Consistent(t)
    requires chat !in t.users
    ensures Step(e, t, chat, Command("status", args)) == Some(Outcome(t, NO_USER))
  {
  }

  /**
   * `/status` for a chat with a user reports how many rows carry that user's id
   * (the multiplicity of the id in the `user_id` column) and writes nothing.
   */
  lemma StatusCountsRows(e: Entrypoint, t: Tables, chat: ChatId, args: seq<string>)
    requires Consistent(t)
    requires chat in t.users
    ensures Step(e, t, chat, Command("status", args))
         == Some(Outcome(t, StatusLine(multiset(UserIdColumn(t.logs))[t.users[chat].id])))
  {
    CountIsMultiplicity(t.logs, t.users[chat].id);
  }

  /**
   * `/log` with text that is not empty (on either entrypoint): exactly one row
   * is appended, for the chat's user and with that text; the reply echoes the
   * text; the chat's count grows by one and every other user's count and row
   * stay as they were.
   */
  lemma LogSavesOneRow(e: Entrypoint, t: Tables, chat: ChatId, args: seq<string>)
    requires Consistent(t)
    requires Join(args, SPACE) != ""
    ensures var r := Step(e, t, chat, Command("log", args));
      && r.Some?
      && var after := r.value.tables;
      && r.value.reply == Saved(Join(args, SPACE))
      && after.users == Upsert(t, chat).0.users
      && after.logs == t.logs + [after.logs[|t.logs|]]
      && after.logs[|t.logs|].userId == after.users[chat].id
      && after.logs[|t.logs|].textLog == Join(args, SPACE)
      && Count(after.logs, after.users[chat].id) == Count(t.logs, after.users[chat].id) + 1
      && (forall c | c in t.users && c != chat ::
            after.users[c] == t.users[c] && Count(after.logs, t.users[c].id) == Count(t.logs, t.users[c].id))
  {
    var r := Step(e, t, chat, Command("log", args));
    var after := r.value.tables;
    var (t1, user) := Upsert(t, chat);
    assert after.logs == t.logs + [after.logs[|t.logs|]];
    var row := after.logs[|t.logs|];
    CountAppend(t.logs, row, user.id);
    forall c | c in t.users && c != chat
      ensures Count(after.logs, t.users[c].id) == Count(t.logs, t.users[c].id)
    {
      CountAppend(t.logs, row, t.users[c].id);
    }
  }

  /** `/log t` followed by `/status` reports the chat's previous count plus one. */
  lemma LogThenStatus(e: Entrypoint, t: Tables, chat: ChatId, args: seq<string>, statusArgs: seq<string>)
    requires Consistent(t)
    requires Join(args, SPACE) != ""
    ensures var r := Step(e, t, chat, Command("log", args));
      && r.Some?
      && var before := Count(t.logs, Upsert(t, chat).1.id);
      && Step(e, r.value.tables, chat, Command("status", statusArgs))
         == Some(Outcome(r.value.tables, StatusLine(before + 1)))
      && (chat in t.users ==>
            Step(e, t, chat, Command("status", statusArgs)) == Some(Outcome(t, StatusLine(before))))
  {
    LogSavesOneRow(e, t, chat, args);
    var after := Step(e, t, chat, Command("log", args)).value.tables;
    var user := Upsert(t, chat).1;
    assert after.users[chat].id == user.id;
    StatusOfKnownChat(e, after, chat, statusArgs);
    if chat in t.users {
      StatusOfKnownChat(e, t, chat, statusArgs);
    }
  }

  /** `/status` for a chat with a user, in terms of `Count`. */
  lemma StatusOfKnownChat(e: Entrypoint, t: Tables, chat: ChatId, args: seq<string>)
    requires Consistent(t)
    requires chat in t.users
    ensures Step(e, t, chat, Command("status", args)) == Some(Outcome(t, StatusLine(Count(t.logs, t.users[chat].id))))
  {
  }

  /** A redelivered `/log` is not deduplicated: the second delivery appends a second row. */
  lemma LogRedeliveredTwice(e: Entrypoint, t: Tables, chat: ChatId, args: seq<string>)
    requires Consistent(t)
    requires Join(args, SPACE) != ""
    ensures var r1 := Step(e, t, chat, Command("log", args));
      && r1.Some?
      && var r2 := Step(e, r1.value.tables, chat, Command("log", args));
      && r2.Some?
      && |r2.value.tables.logs| == |t.logs| + 2
      && Count(r2.value.tables.logs, Upsert(t, chat).1.id) == Count(t.logs, Upsert(t, chat).1.id) + 2
  {
    var r1 := Step(e, t, chat, Command("log", args));
    LogSavesOneRow(e, t, chat, args);
    LogSavesOneRow(e, r1.value.tables, chat, args);
  }

  /** Webhook application: an empty `/log` replies with the usage text and writes nothing at all. */
  lemma AppEmptyLogWritesNothing(t: Tables, chat: ChatId, args: seq<string>)
    requires Consistent(t)
    requires Join(args, SPACE) == ""
    ensures Step(WebApp, t, chat, Command("log", args)) == Some(Outcome(t, USAGE))
  {
  }

  /** Polling bot: an empty `/log` replies with the usage text after upserting the user; no row is added. */
  lemma BotEmptyLogOnlyUpserts(t: Tables, chat: ChatId, args: seq<string>)
    requires Consistent(t)
    requires Join(args, SPACE) == ""
    ensures var r := Step(PollingBot, t, chat, Command("log", args));
      && r == Some(Outcome(Upsert(t, chat).0, USAGE))
      && r.value.tables.logs == t.logs
      && chat in r.value.tables.users
  {
  }

  /**
   * The two entrypoints differ on an empty `/log` from a new chat: both reply
   * with the usage text and add no row, but only the polling bot creates the user.
   */
  lemma EmptyLogDiffers(t: Tables, chat: ChatId, args: seq<string>)
    requires Consistent(t)
    requires chat !in t.users && Join(args, SPACE) == ""
    ensures var app := Step(WebApp, t, chat, Command("log", args));
      var bot := Step(PollingBot, t, chat, Command("log", args));
      && app.Some? && bot.Some?
      && app.value.reply == USAGE && bot.value.reply == USAGE
      && app.value.tables.logs == t.logs && bot.value.tables.logs == t.logs
      && chat !in app.value.tables.users
      && chat in bot.value.tables.users
  {
  }

  /**
   * After an empty `/log` from a new chat, `/status` tells the webhook
   * application's user to send /start first, while the polling bot reports 0 entries.
   */
  lemma StatusAfterEmptyLog(t: Tables, chat: ChatId, args: seq<string>, statusArgs: seq<string>)
    requires Consistent(t)
    requires chat !in t.users && Join(args, SPACE) == ""
    ensures var app := Step(WebApp, t, chat, Command("log", args));
      && app.Some?
      && Step(WebApp, app.value.tables, chat, Command("status", statusArgs)) == Some(Outcome(t, NO_USER))
    ensures var bot := Step(PollingBot, t, chat, Command("log", args));
      && bot.Some?
      && Step(PollingBot, bot.value.tables, chat, Command("status", statusArgs))
         == Some(Outcome(bot.value.tables, StatusLine(0)))
  {
    var (t1, user) := Upsert(t, chat);
    forall i | 0 <= i < |t.logs|
      ensures t.logs[i].userId != user.id
    {
      assert HasUserId(t, t.logs[i].userId);
      var c :| c in t.users && t.users[c].id == t.logs[i].userId;
    }
    CountUnused(t.logs, user.id);
  }

  /** A rejected webhook request reaches no handler: HTTP 401, no reply, no write. */
  lemma WebhookRejectsBeforeProcessing(t: Tables, secret: string, header: Option<string>, chat: ChatId, m: Message)
    requires Consistent(t)
    requires secret != "" && header != Some(secret)
    ensures Webhook(t, secret, header, chat, m) == Delivery(t, Unauthorized, None)
  {
  }

  /** An accepted webhook request is processed by the registrations and answered `{"ok": True}`. */
  lemma WebhookProcessesAccepted(t: Tables, secret: string, header: Option<string>, chat: ChatId, m: Message)
    requires Consistent(t)
    requires SecretAccepted(secret, header)
    ensures var r := Webhook(t, secret, header, chat, m);
      && r.response == Ok
      && (m.Command? && m.name !in COMMANDS ==> r.tables == t && r.reply == None)
      && (m.Text? || m.name in COMMANDS ==>
            var s := Step(WebApp, t, chat, m); s.Some? && r.tables == s.value.tables && r.reply == Some(s.value.reply))
  {
  }
}

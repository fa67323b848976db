# Accountability coach: command handling over a two-table store

This project models the core of a Telegram accountability-coach bot. The bot
keeps two tables: `users` (one row per Telegram chat) and `daily_logs` (the
entries a user records with `/log`). It runs behind one of two entrypoints:

- a FastAPI webhook application (`app/main.py`), and
- a long-polling bot (`bot/bot.py`).

Both register the same four commands (`/start`, `/ping`, `/log`, `/status`)
and a fallback for plain text. They differ in two places: the `/start` welcome
text, and the order of the two steps of `/log`. The webhook application rejects
empty text before it looks up the user. The polling bot upserts the user first.

The model has eight modules:

- `Db` (`db.dfy`): the rows of the two tables (`User`, `DailyLog`) and the
  database contents as a value, `Tables`. The predicate `Consistent` holds the
  column constraints: unique non-null `tg_chat_id`, primary keys, and the
  non-null foreign key `daily_logs.user_id`. The class `Store` is the mutable
  database. Its methods are the single statements the handlers run against it:
  a query, an insert plus commit, a count.
- `Coach` (`coach.dfy`): what every handler does to `Tables` and what it
  replies, as functions. `Step` is the handler registrations and `Webhook`
  the webhook endpoint.
- `Properties` (`properties.dfy`): the handlers' promises, proved for both
  entrypoints over `Step`, and the places where the two entrypoints differ.
- `AppMain` (`app_main.dfy`) and `BotMain` (`bot_main.dfy`): the handlers of
  each file as methods over a `Store`. Each follows its Python function
  statement by statement and is proved against the matching `Coach` function.
- `Scenario` (`scenario.dfy`): one chat's first conversation with a fresh
  database, driven through `AppMain.Dispatch`.
- `Strings` and `Wrappers`: `" ".join`, the decimal rendering of a count, and
  `Option`.

Modelling choices:

- Inbound messages are already classified by the Telegram library:
  `Command(name, args)` or `Text(s)`. `args` is the library's `context.args`.
  `name` is the command name as the library's `CommandHandler` matches it:
  lower-cased, with a suffix naming this bot (`/start@<bot name>`) removed. So
  `/Start` and `/start@<bot name>` both arrive as `Command("start", ...)`.
- The chat id is a parameter of each handler, taken from
  `update.effective_chat.id`.
- Replies are returned as values instead of being sent with `reply_text`.
- Python's `if not text` on a joined string is modelled as `text == ""`.
- Primary keys come from a per-table counter that starts at 1 and is never
  reused, like a serial column.
- The webhook secret is a parameter. The source reads it from
  `TELEGRAM_WEBHOOK_SECRET`, defaulting to `"dev-secret"`. A configured empty
  secret switches the check off (`if WEBHOOK_SECRET and ...`).

In these places the model follows the code exactly:

- An unregistered command gets no reply, because the fallback filter is
  `filters.TEXT & ~filters.COMMAND`. It is not sent to the fallback.
- In `bot/bot.py`, `/log` with empty text writes a user row.
- Nothing in the schema forbids an empty `text_log`. Only the handlers keep it
  non-empty.
- `upsert_user` has no recovery from a uniqueness conflict.
- Handler errors are not caught and turned into replies.

## Model

| member | source | states |
|---|---|---|
| Strings.Join | app/main.py:43 | `" ".join(args)` starts with the first argument and is empty exactly when there are no arguments or only one, empty, argument |
| Strings.JoinOfWords | app/main.py:43-45 | when every argument is a non-empty word, the joined text is empty exactly when there are no arguments, so only `/log` with no arguments gets the usage reply |
| Strings.NatToString | app/main.py:61 | the count in the status reply is a non-empty string of decimal digits with no leading zero |
| Strings.DecimalRoundTrip | app/main.py:61 | reading the rendered count back as a decimal number gives the count |
| Strings.NatToStringInjective | app/main.py:61 | distinct counts render as distinct strings |
| Strings.DigitChar | app/main.py:61 | each digit of the rendered count is the character `'0'`..`'9'` whose value is that digit |
| Db.EmptyValid | app/db.py:23-36 | empty tables satisfy every declared constraint |
| Db.Consistent | app/db.py:25-35 | the table constraints: `tg_chat_id` unique and non-null, `users.id` and `daily_logs.id` unique, every `daily_logs.user_id` an existing user id; hence every row's user id has already been handed out |
| Db.Lookup | app/main.py:22 | looking up a chat id finds a row exactly when the chat has a user, and the row found is that user's stored row |
| Db.LookupAfterInsert | app/main.py:22-25 | after a user is inserted for a chat, looking that chat up finds exactly that row, and every other chat's lookup is unchanged |
| Db.Count | app/main.py:60 | a user's row count is never more than the number of rows |
| Db.CountIsMultiplicity | app/main.py:60 | the count filtered by `user_id` equals the number of times the id occurs in the `user_id` column |
| Db.CountAppend | app/main.py:46-61 | appending a row adds one to its own user's count and nothing to any other user's count |
| Db.CountUnused | bot/bot.py:64-65 | an id that no row mentions has count 0 |
| Db.InsertUser | app/db.py:23-28 | a new user row maps the chat to a fresh id with tz `"UTC"`, keeps every other row, and keeps every constraint |
| Db.InsertLog | app/db.py:30-36 | a new log row is appended after all existing rows, has the given user and text and a fresh id, and keeps every constraint, the foreign key included |
| Db.Store.constructor | app/db.py:19-36 | a new database has two empty tables that satisfy the constraints |
| Db.Store.FindUser | app/main.py:22 | the query by `tg_chat_id` finds the chat's user exactly when there is one |
| Db.Store.AddUser | app/main.py:24-25 | adding and committing a user changes the database exactly as `InsertUser` and keeps it consistent |
| Db.Store.AddLog | app/main.py:49 | adding and committing a log row changes the database exactly as `InsertLog` and keeps it consistent |
| Db.Store.CountLogs | app/main.py:60 | the count query returns how many rows carry that user id |
| Coach.StatusLineInjective | app/main.py:61 | the status reply determines the count it reports |
| Coach.Welcome | app/main.py:33-37 | the welcome text of `start`; the webhook application's text differs from the polling bot's (bot/bot.py:29-33) |
| Coach.Saved | app/main.py:52 | the confirmation is `"✅ Saved log: "` followed by the stored text, which can be read back from it |
| Coach.StatusLine | app/main.py:61 | the status reply is `"📊 You’ve logged "`, the count in decimal digits, and `" entries."`; reading the digits back gives the count |
| Coach.Upsert | app/main.py:19-28 | get-or-create: an existing user is returned and nothing is written; otherwise exactly one user with that chat id, a fresh id and tz `"UTC"` is added; log rows are untouched and consistency is kept |
| Coach.Start | app/main.py:31-37 | after `/start` the chat has a user and the reply is the entrypoint's welcome text; no log row is added, no existing user changes, and a known chat causes no write |
| Coach.Save | app/main.py:49-52 | saving appends exactly one row, for the given user and with the given text, and leaves the users unchanged |
| Coach.LogApp | app/main.py:42-52 | empty text: the usage reply and no write at all; otherwise the chat's user is upserted, exactly one row with its id and the text is appended, and the text is echoed; consistency is kept and no existing user or row changes |
| Coach.LogBot | bot/bot.py:38-54 | the chat has a user afterwards in every case; empty text: the usage reply, after the upsert and with no row added; otherwise exactly one row with the user's id and the text is appended and the text is echoed |
| Coach.Status | app/main.py:54-63 | the reply is the guidance exactly when the chat has no user |
| Coach.Step | app/main.py:70-74 | exactly the unregistered commands get no handler; every handled message keeps consistency, changes no existing user or row, and appends at most one row |
| Coach.Webhook | app/main.py:93-103 | the request gets 401 exactly when a secret is configured and the header is missing or different; a refused request writes nothing and sends no reply |
| Coach.SecretAccepted | app/main.py:98 | the webhook gate: with an empty configured secret every request passes; otherwise exactly a header equal to the secret passes |
| Properties.UpsertIdempotent | app/main.py:19-28 | a second upsert of the same chat returns the same user and writes nothing |
| Properties.StartEnsuresUser | app/main.py:31-37 | `/start` replies with the welcome text, leaves a user for the chat and adds no log row; for a known chat it writes nothing |
| Properties.StartRedelivered | bot/bot.py:26-33 | a redelivered `/start` has the same outcome and writes nothing more |
| Properties.PingPong | app/main.py:39-40 | `/ping` replies `"pong"` and leaves the database unchanged |
| Properties.TextFallsBack | app/main.py:65-66 | non-command text gets `"I understand: /start, /ping, /log, /status"` in any state, with no write |
| Properties.UnregisteredCommandIgnored | app/main.py:74 | a command name outside the four registered ones matches no handler |
| Properties.StatusWithoutUser | app/main.py:57-59 | `/status` for a chat without a user replies `"Send /start first."` and writes nothing |
| Properties.StatusCountsRows | app/main.py:60-61 | `/status` for a known chat reports how many rows carry its user id and writes nothing |
| Properties.StatusOfKnownChat | app/main.py:57-61 | `/status` for a chat with a user replies with the count of that user's rows and writes nothing |
| Properties.LogSavesOneRow | app/main.py:46-52 | `/log` with non-empty text appends exactly one row, with the chat's user id and that text; it replies `"✅ Saved log: "` followed by the text; the chat's count grows by one; other users and their counts stay unchanged |
| Properties.LogThenStatus | app/main.py:46-61 | `/status` after a successful `/log` reports the previous count plus one |
| Properties.LogRedeliveredTwice | bot/bot.py:47-54 | a redelivered `/log` is not deduplicated: two deliveries add two rows |
| Properties.AppEmptyLogWritesNothing | app/main.py:43-45 | in the webhook application, `/log` with empty text replies with the usage text and writes no user and no row |
| Properties.BotEmptyLogOnlyUpserts | bot/bot.py:40-45 | in the polling bot, `/log` with empty text replies with the usage text after upserting the user; no row is added |
| Properties.EmptyLogDiffers | bot/bot.py:38-45 | for an empty `/log` from a new chat, both entrypoints reply with the usage text and add no row, but only the polling bot creates the user |
| Properties.StatusAfterEmptyLog | bot/bot.py:56-65 | after an empty `/log` from a new chat, the webhook application replies `"Send /start first."` to `/status`; the polling bot reports 0 entries |
| Properties.WebhookRejectsBeforeProcessing | app/main.py:98-99 | a refused request gets 401 before the update is parsed or processed: no reply and no write |
| Properties.WebhookProcessesAccepted | app/main.py:100-103 | an accepted request is processed by the registrations and answered `{"ok": True}` |
| AppMain.UpsertUser | app/main.py:19-28 | the query-then-insert changes the database and returns the user exactly as `Coach.Upsert` |
| AppMain.Start | app/main.py:31-37 | upserts, then replies with the welcome text of the webhook application, as `Coach.Start` |
| AppMain.Ping | app/main.py:39-40 | replies `"pong"`; it cannot touch the database |
| AppMain.LogCmd | app/main.py:42-52 | checks the text before the upsert; effect and reply are those of `Coach.LogApp` |
| AppMain.StatusCmd | app/main.py:54-63 | reads only; the reply is `Coach.Status`, and it is the guidance exactly when the chat has no user |
| AppMain.Fallback | app/main.py:65-66 | replies with the fallback text |
| AppMain.Dispatch | app/main.py:70-74 | routes each message as `Coach.Step`; an unmatched command gets no reply and no write |
| AppMain.TelegramWebhook | app/main.py:93-103 | checks the secret before it dispatches; response, reply and effect are those of `Coach.Webhook` |
| BotMain.UpsertUser | bot/bot.py:12-24 | create the user if it does not exist, else return the existing one, as `Coach.Upsert` |
| BotMain.Start | bot/bot.py:26-33 | upserts, then replies with the welcome text of the polling bot, as `Coach.Start` |
| BotMain.Ping | bot/bot.py:35-36 | replies `"pong"`; it cannot touch the database |
| BotMain.LogCmd | bot/bot.py:38-54 | upserts before it checks the text; effect and reply are those of `Coach.LogBot` |
| BotMain.StatusCmd | bot/bot.py:56-67 | reads only; the reply is `Coach.Status`, and it is the guidance exactly when the chat has no user |
| BotMain.Fallback | bot/bot.py:69-70 | replies with the fallback text |
| BotMain.Dispatch | bot/bot.py:75-80 | routes each message as `Coach.Step` for the polling bot; an unmatched command gets no reply and no write |
| Scenario.StartOnEmpty | app/main.py:31-37 | `/start` from chat 111 on a fresh database creates user 1 with tz `"UTC"` and sends the welcome text |
| Scenario.LogAfterStart | app/main.py:42-52 | then `/log 2 eggs + dal` stores row 1 for user 1 with text `"2 eggs + dal"` |
| Scenario.StatusAfterLog | app/main.py:54-61 | then `/status` reports one entry |
| Scenario.AfterLogEmptyLog | app/main.py:43-45 | then an empty `/log` replies with the usage text and leaves the count at one |
| Scenario.RepliesSpelledOut | app/main.py:52-61 | the confirmation and status replies of that conversation, spelled out |
| Scenario.FirstConversation | app/main.py:65-74 | the whole conversation through the registrations gives these replies: the welcome text, `"✅ Saved log: 2 eggs + dal"`, `"📊 You’ve logged 1 entries."`, the usage text, the same status, and no reply to an unregistered `/remind` |

## Left out

- Web framework: the FastAPI app, the startup and shutdown hooks, and the `/health` and `/` endpoints (app/main.py:16, 76-91). They carry no logic.
- Database engine and sessions: `SessionLocal`, `commit`/`refresh`/`close` and `DATABASE_URL` (app/db.py:10-17). They are replaced by `Store`, where each insert commits at once.
- Server-assigned columns: `created_at` and `date` (`func.now()`, `func.current_date()`). No handler can observe them.
- `users.tz` is modelled as a plain string. Its `String(64)` length bound is not modelled, because only the default `"UTC"` is ever written.
- Telegram library internals: splitting the text into a command and `context.args`, `Update.de_json`, `process_update` and `reply_text`. The parsed message is an input and the reply an output.
- Case folding and `@<bot name>` suffixes of command names are done by the library before a `Command` is formed. A command addressed to a different bot is not modelled.
- Edited messages, and other updates that reach a handler while `update.message` is None, are not modelled. For these the handler still does its database writes: `upsert_user`, and the row `log_cmd` commits at app/main.py:49 and bot/bot.py:49-50. Then `update.message.reply_text` fails, so no reply is sent. `ping` and `fallback` write nothing and fail the same way.
- Updates that carry no text, such as photos, are not modelled. They match none of the registered filters.
- Webhook bodies that are not JSON: they fail in `request.json()` before any handler runs.
- The polling loop `run_polling` (bot/bot.py:81) and its offset handling belong to the library. One update is one `BotMain.Dispatch`.
- Concurrency: two first-contact messages from one chat racing in `upsert_user` are not modelled. The source has no conflict recovery and relies on the unique index. The async/await interleaving of handlers is also left out.
- Database errors: a failing commit or lost connection raises through the handler. The model has no such failures.
- Configuration: `.env` loading and the startup failure when `TELEGRAM_BOT_TOKEN` is missing (bot/bot.py:73-74).
- Db.InsertLog: its requirement that the user id exists stands for the foreign key that the database enforces by raising. Both handlers pass the id of a user they have just upserted, so the error path cannot be reached from them.
- Db.InsertUser: its requirement that the chat has no user stands for the unique index on `tg_chat_id`. The only caller, upsert, inserts after a lookup that found nothing.

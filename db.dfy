/**
 * The two tables of the accountability coach (`users` and `daily_logs`) and the
 * constraints their column declarations impose, first as a value (`Tables`) and
 * then as the mutable database the handlers write to (`Store`).
 */
module Db {
  import opened Wrappers

  /** A Telegram chat id (`BigInteger`, `nullable=False`: every user has one). */
  type ChatId = int

  /** An `Integer` primary key, assigned by the database on insert. */
  type Id = nat

  /** The column default of `users.tz`. */
  const DEFAULT_TZ: string := "UTC"

  /** The first primary key a fresh table hands out. */
  const FIRST_ID: Id := 1

  /** A row of `users`; `created_at` is server-assigned and not observable by the handlers. */
  datatype User = User(id: Id, tgChatId: ChatId, tz: string)

  /** A row of `daily_logs`; `date` and `created_at` are server-assigned and left out. */
  datatype DailyLog = DailyLog(id: Id, userId: Id, textLog: string)

  /**
   * The database contents. `users` is the unique index on `tg_chat_id`;
   * `logs` is the `daily_logs` table in insertion order; the two counters are the
   * primary-key sequences of the two tables.
   */
  datatype Tables = Tables(users: map<ChatId, User>, logs: seq<DailyLog>, nextUserId: Id, nextLogId: Id)

  const EMPTY: Tables := Tables(map[], [], FIRST_ID, FIRST_ID)

  /** Some user row has primary key `uid`. */
  ghost predicate HasUserId(t: Tables, uid: Id) {
    exists c | c in t.users :: t.users[c].id == uid
  }

  /**
   * The constraints declared on the two tables. A consequence: every log row
   * points at a user id that has already been handed out.
   */
  ghost predicate Consistent(t: Tables)
    ensures Consistent(t) ==> forall i | 0 <= i < |t.logs| :: t.logs[i].userId < t.nextUserId
  {
    // the index entry of a user is its own tg_chat_id, so tg_chat_id is unique
    && (forall c | c in t.users :: t.users[c].tgChatId == c && t.users[c].id < t.nextUserId)
    // users.id is a primary key
    && (forall c1, c2 | c1 in t.users && c2 in t.users && c1 != c2 :: t.users[c1].id != t.users[c2].id)
    // daily_logs.user_id is a non-null foreign key into users.id
    && (forall i | 0 <= i < |t.logs| :: t.logs[i].id < t.nextLogId && HasUserId(t, t.logs[i].userId))
    // daily_logs.id is a primary key
    && (forall i, j | 0 <= i < j < |t.logs| :: t.logs[i].id != t.logs[j].id)
  }

  /**
   * `t'` is `t` after handlers ran: no user row is changed or removed and
   * log rows are only appended.
   */
  ghost predicate Extends(t: Tables, t': Tables) {
    && (forall c | c in t.users :: c in t'.users && t'.users[c] == t.users[c])
    && t.logs <= t'.logs
  }

  lemma EmptyValid()
    ensures Consistent(EMPTY)
  {
  }

  /** `users.query.filter_by(tg_chat_id=chat).first()`. */
  function Lookup(t: Tables, chat: ChatId): (r: Option<User>)
    requires Consistent(t)
    ensures r.Some? <==> chat in t.users
    ensures r.Some? ==> r.value == t.users[chat] && r.value.tgChatId == chat
  {
    if chat in t.users then Some(t.users[chat]) else None
  }

  /** A lookup after inserting a chat's user finds that row, and every other chat's lookup is as before. */
  lemma LookupAfterInsert(t: Tables, chat: ChatId, other: ChatId)
    requires Consistent(t) && chat !in t.users
    ensures var (t', u) := InsertUser(t, chat);
      && Lookup(t', chat) == Some(u)
      && (other != chat ==> Lookup(t', other) == Lookup(t, other))
  {
  }

  /** `daily_logs.query.filter_by(user_id=uid).count()`. */
  function Count(logs: seq<DailyLog>, uid: Id): (n: nat)
    ensures n <= |logs|
  {
    if logs == [] then 0
    else (if logs[0].userId == uid then 1 else 0) + Count(logs[1..], uid)
  }

  /** The `user_id` column of `daily_logs`. */
  function UserIdColumn(logs: seq<DailyLog>): seq<Id> {
    seq(|logs|, i requires 0 <= i < |logs| => logs[i].userId)
  }

  /** The count of a user's rows is the multiplicity of its id in the `user_id` column. */
  lemma {:induction false} CountIsMultiplicity(logs: seq<DailyLog>, uid: Id)
    ensures Count(logs, uid) == multiset(UserIdColumn(logs))[uid]
  {
    if logs != [] {
      assert UserIdColumn(logs) == [logs[0].userId] + UserIdColumn(logs[1..]);
      CountIsMultiplicity(logs[1..], uid);
    }
  }

  /** Appending a row adds one to the count of its user and nothing to anyone else's. */
  lemma {:induction false} CountAppend(logs: seq<DailyLog>, row: DailyLog, uid: Id)
    ensures Count(logs + [row], uid) == Count(logs, uid) + (if row.userId == uid then 1 else 0)
  {
    if logs == [] {
      assert [row][1..] == [];
    } else {
      assert (logs + [row])[1..] == logs[1..] + [row];
      CountAppend(logs[1..], row, uid);
    }
  }

  /** A user id that no row mentions has count 0. */
  lemma {:induction false} CountUnused(logs: seq<DailyLog>, uid: Id)
    requires forall i | 0 <= i < |logs| :: logs[i].userId != uid
    ensures Count(logs, uid) == 0
  {
    if logs != [] {
      assert logs[0].userId != uid;
      CountUnused(logs[1..], uid);
    }
  }

  /**
   * `db.add(User(tg_chat_id=chat)); db.commit(); db.refresh(user)`: the new row
   * takes the next primary key and the `tz` default.
   */
  function InsertUser(t: Tables, chat: ChatId): (r: (Tables, User))
    requires Consistent(t) && chat !in t.users
    ensures Consistent(r.0)
    ensures r.1.tgChatId == chat && r.1.tz == DEFAULT_TZ
    ensures forall c | c in t.users :: t.users[c].id != r.1.id
    ensures r.0.users == t.users[chat := r.1] && r.0.logs == t.logs
  {
    var u := User(t.nextUserId, chat, DEFAULT_TZ);
    var t' := Tables(t.users[chat := u], t.logs, t.nextUserId + 1, t.nextLogId);
    assert forall i | 0 <= i < |t'.logs| :: HasUserId(t', t'.logs[i].userId) by {
      forall i | 0 <= i < |t'.logs|
        ensures HasUserId(t', t'.logs[i].userId)
      {
        assert HasUserId(t, t.logs[i].userId);
        var c :| c in t.users && t.users[c].id == t.logs[i].userId;
        assert t'.users[c] == t.users[c];
      }
    }
    (t', u)
  }

  /** `db.add(DailyLog(user_id=uid, text_log=text)); db.commit()`; the foreign key must hold. */
  function InsertLog(t: Tables, uid: Id, text: string): (r: Tables)
    requires Consistent(t) && HasUserId(t, uid)
    ensures Consistent(r)
    ensures r.users == t.users
    ensures |r.logs| == |t.logs| + 1 && r.logs[..|t.logs|] == t.logs
    ensures r.logs[|t.logs|].userId == uid && r.logs[|t.logs|].textLog == text
    ensures forall i | 0 <= i < |t.logs| :: t.logs[i].id != r.logs[|t.logs|].id
  {
    var row := DailyLog(t.nextLogId, uid, text);
    var r := Tables(t.users, t.logs + [row], t.nextUserId, t.nextLogId + 1);
    assert r.logs[..|t.logs|] == t.logs;
    r
  }

  /**
   * The database behind `SessionLocal`. Each method is one statement of the
   * handlers against it, committed at once.
   */
  class Store {
    var users: map<ChatId, User>
    var logs: seq<DailyLog>
    var nextUserId: Id
    var nextLogId: Id

    function Snapshot(): Tables
      reads this
    {
      Tables(users, logs, nextUserId, nextLogId)
    }

    ghost predicate Valid()
      reads this
    {
      Consistent(Snapshot())
    }

    /** A freshly created schema: both tables empty. */
    constructor ()
      ensures Valid() && Snapshot() == EMPTY
    {
      users, logs := map[], [];
      nextUserId, nextLogId := FIRST_ID, FIRST_ID;
    }

    /** `db.query(User).filter_by(tg_chat_id=chat).first()`. */
    method FindUser(chat: ChatId) returns (u: Option<User>)
      requires Valid()
      ensures u.Some? <==> chat in users
      ensures u.Some? ==> u.value == users[chat] && u.value.tgChatId == chat
    {
      u := if chat in users then Some(users[chat]) else None;
    }

    /** `db.add(User(tg_chat_id=chat)); db.commit(); db.refresh(user)`. */
    method AddUser(chat: ChatId) returns (u: User)
      requires Valid() && chat !in users
      modifies this
      ensures Valid()
      ensures (Snapshot(), u) == InsertUser(old(Snapshot()), chat)
    {
      ghost var after := InsertUser(Snapshot(), chat);
      u := User(nextUserId, chat, DEFAULT_TZ);
      users := users[chat := u];
      nextUserId := nextUserId + 1;
      assert Snapshot() == after.0;
    }

    /** `db.add(DailyLog(user_id=uid, text_log=text)); db.commit()`. */
    method AddLog(uid: Id, text: string)
      requires Valid() && HasUserId(Snapshot(), uid)
      modifies this
      ensures Valid()
      ensures Snapshot() == InsertLog(old(Snapshot()), uid, text)
    {
      logs := logs + [DailyLog(nextLogId, uid, text)];
      nextLogId := nextLogId + 1;
    }

    /** `db.query(DailyLog).filter_by(user_id=uid).count()`. */
    method CountLogs(uid: Id) returns (n: nat)
      ensures n == multiset(UserIdColumn(logs))[uid]
      ensures n == Count(logs, uid)
    {
      n := Count(logs, uid);
      CountIsMultiplicity(logs, uid);
    }
  }
}

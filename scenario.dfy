/**
 * A client of the webhook application: one chat's first conversation with a
 * fresh database, driven through the handler registrations.
 */
module Scenario {
  import opened Wrappers
  import opened Strings
  import opened Db
  import opened Coach
  import AppMain

  const CHAT: ChatId := 111
  const FIRST_USER: User := User(FIRST_ID, CHAT, DEFAULT_TZ)
  const AFTER_START: Tables := Tables(map[CHAT := FIRST_USER], [], FIRST_ID + 1, FIRST_ID)
  const AFTER_LOG: Tables :=
    Tables(AFTER_START.users, [DailyLog(FIRST_ID, FIRST_ID, "2 eggs + dal")], FIRST_ID + 1, FIRST_ID + 1)

  lemma StartOnEmpty()
    ensures Consistent(EMPTY)
    ensures Step(WebApp, EMPTY, CHAT, Command("start", [])) == Some(Outcome(AFTER_START, WELCOME_APP))
  {
  }

  lemma LogAfterStart()
    ensures Consistent(AFTER_START)
    ensures Step(WebApp, AFTER_START, CHAT, Command("log", ["2", "eggs", "+", "dal"]))
         == Some(Outcome(AFTER_LOG, Saved("2 eggs + dal")))
  {
    StartOnEmpty();
    assert Join(["2", "eggs", "+", "dal"], SPACE) == "2 eggs + dal";
    assert Upsert(AFTER_START, CHAT) == (AFTER_START, FIRST_USER);
  }

  lemma StatusAfterLog()
    ensures Consistent(AFTER_LOG)
    ensures Step(WebApp, AFTER_LOG, CHAT, Command("status", [])) == Some(Outcome(AFTER_LOG, StatusLine(1)))
  {
  }

  lemma AfterLogEmptyLog()
    ensures Consistent(AFTER_LOG)
    ensures Step(WebApp, AFTER_LOG, CHAT, Command("log", [])) == Some(Outcome(AFTER_LOG, USAGE))
  {
    StatusAfterLog();
  }

  lemma RepliesSpelledOut()
    ensures Saved("2 eggs + dal") == "\U{2705} Saved log: 2 eggs + dal"
    ensures StatusLine(1) == "\U{1F4CA} You\U{2019}ve logged 1 entries."
  {
  }

  method FirstConversation() returns (replies: seq<Option<string>>)
    ensures replies == [
      Some(WELCOME_APP),
      Some("\U{2705} Saved log: 2 eggs + dal"),
      Some("\U{1F4CA} You\U{2019}ve logged 1 entries."),
      Some(USAGE),
      Some("\U{1F4CA} You\U{2019}ve logged 1 entries."),
      None
    ]
  {
    var db := new Store();
    StartOnEmpty();
    var r1 := AppMain.Dispatch(db, CHAT, Command("start", []));
    assert r1 == Some(WELCOME_APP) && db.Snapshot() == AFTER_START;
    LogAfterStart();
    var r2 := AppMain.Dispatch(db, CHAT, Command("log", ["2", "eggs", "+", "dal"]));
    assert r2 == Some(Saved("2 eggs + dal")) && db.Snapshot() == AFTER_LOG;
    StatusAfterLog();
    var r3 := AppMain.Dispatch(db, CHAT, Command("status", []));
    assert r3 == Some(StatusLine(1)) && db.Snapshot() == AFTER_LOG;
    AfterLogEmptyLog();
    var r4 := AppMain.Dispatch(db, CHAT, Command("log", []));
    assert r4 == Some(USAGE) && db.Snapshot() == AFTER_LOG;
    var r5 := AppMain.Dispatch(db, CHAT, Command("status", []));
    assert r5 == Some(StatusLine(1));
    var r6 := AppMain.Dispatch(db, CHAT, Command("remind", ["me"]));
    assert r6 == None;
    RepliesSpelledOut();
    replies := [r1, r2, r3, r4, r5, r6];
  }
}

/**
 * The fallback for any text no other handler took: log it and answer with
 * the echo text, except for the texts on the ignore list.
 */
module OtherHandlers {
  import opened Optional
  import opened Strings
  import opened Chat
  import opened Dates
  import opened Database

  /** Texts the fallback neither logs nor answers. */
  const IgnoreMessages: seq<string> := ["/register"]

  /** send_echo, on the tables: the new tables and the replies sent. */
  function Echo(db: Tables, u: UserId, text: string, today: Date): (r: (Tables, seq<Reply>))
    requires ValidDate(today)
    ensures r.0.profile == db.profile && r.0.subjects == db.subjects
    ensures text == "/register" ==> r == (db, [])
    ensures text != "/register" ==>
              r.1 == [Say(EchoMessageBot, NoKeyboard)]
              && |r.0.messages| == |db.messages| + 1 && r.0.messages[..|db.messages|] == db.messages
              && r.0.messages[|db.messages|].userId == u && r.0.messages[|db.messages|].text == text
  {
    if text in IgnoreMessages then (db, [])
    else (db.(messages := db.messages + [MessageRow(u, text, FormatDate(today))]), [Say(EchoMessageBot, NoKeyboard)])
  }

  /** The row the fallback logs carries the day the message was received on, in a form that reads back. */
  lemma EchoLogsReceiptDay(db: Tables, u: UserId, text: string, today: Date)
    requires ValidDate(today) && text != "/register"
    ensures var m := Echo(db, u, text, today).0.messages;
            |m| == |db.messages| + 1 && ParseDate(m[|db.messages|].day) == Some(today)
  {
    DateRoundTrip(today);
  }

  method SendEcho(store: Store, u: UserId, text: string, today: Date) returns (replies: seq<Reply>)
    requires store.ready && ValidDate(today)
    requires text !in IgnoreMessages ==> SqlSafe(text)
    modifies store`messages
    ensures (store.Contents(), replies) == Echo(old(store.Contents()), u, text, today)
  {
    if text in IgnoreMessages {
      return [];
    }
    store.CreateMessage(u, text, today);
    replies := [Say(EchoMessageBot, NoKeyboard)];
  }
}

/**
 * The menu commands: /start, the "log in" button, /help and /view_scores.
 * None of them writes to the store; the last two read it.
 */
module UserHandlers {
  import opened Chat
  import opened Database

  /** start_bot: one greeting carrying the register + log in keyboard. */
  function StartBotReplies(): (r: seq<Reply>)
    ensures |r| == 1 && r[0].Say? && r[0].keyboard == RegisterOrLogin
  {
    [Say(StartReg, RegisterOrLogin)]
  }

  /** process_help_command */
  function HelpReplies(): (r: seq<Reply>)
    ensures |r| == 1 && r[0].Say? && r[0].phrase == Help
  {
    [Say(Help, NoKeyboard)]
  }

  /**
   * login_menu: the not-registered prompt with the registration-only
   * keyboard when the user has no profile row, the greeting photo otherwise.
   */
  function LoginMenuReplies(profile: seq<ProfileRow>, u: UserId): (r: seq<Reply>)
    ensures |r| == 1
    ensures r[0] == Photo(Greeting) <==> HasProfile(profile, u)
    ensures r[0] == Say(StartNoReg, RegisterOnly) <==> !HasProfile(profile, u)
  {
    var userSql := Select(profile, ProfileOwner, u);
    SelectProfileEmpty(profile, u);
    if userSql == [] then [Say(StartNoReg, RegisterOnly)] else [Photo(Greeting)]
  }

  method LoginMenu(store: Store, u: UserId) returns (replies: seq<Reply>)
    requires store.ready
    ensures replies == LoginMenuReplies(store.profile, u)
  {
    var userSql := store.LoadUser(u);
    if userSql == [] {
      replies := [Say(StartNoReg, RegisterOnly)];
    } else {
      replies := [Photo(Greeting)];
    }
  }

  /** One score line per row, naming the row's subject and points, in row order. */
  function ScoreLines(rows: seq<ScoreRow>): (r: seq<Reply>)
    ensures |r| == |rows|
    ensures forall i :: 0 <= i < |rows| ==> r[i] == ScoreLine(rows[i].subject, rows[i].points)
  {
    if rows == [] then []
    else ScoreLines(rows[..|rows| - 1]) + [ScoreLine(rows[|rows| - 1].subject, rows[|rows| - 1].points)]
  }

  /** services_answer_command: one line per stored score, or the "no data" text when there is none. */
  function ViewScoresReplies(rows: seq<ScoreRow>): (r: seq<Reply>)
    ensures rows == [] ==> r == [Say(NotSubject, NoKeyboard)]
    ensures rows != [] ==> |r| == |rows|
    ensures rows != [] ==> forall i :: 0 <= i < |rows| ==> r[i] == ScoreLine(rows[i].subject, rows[i].points)
  {
    if rows != [] then ScoreLines(rows) else [Say(NotSubject, NoKeyboard)]
  }

  method ViewScores(store: Store, u: UserId) returns (replies: seq<Reply>)
    requires store.ready
    ensures replies == ViewScoresReplies(Select(store.subjects, ScoreOwner, u))
  {
    var userSql := store.LoadEducationalSubjects(u);
    replies := [];
    if userSql != [] {
      for i := 0 to |userSql|
        invariant |replies| == i
        invariant forall k :: 0 <= k < i ==> replies[k] == ScoreLine(userSql[k].subject, userSql[k].points)
      {
        replies := replies + [ScoreLine(userSql[i].subject, userSql[i].points)];
      }
    } else {
      replies := [Say(NotSubject, NoKeyboard)];
    }
  }
}

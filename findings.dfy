/**
 * login_menu as the score-entry dialog calls it. process_save_subject hands
 * it the Message it is processing, and login_menu answers an unregistered
 * user through `event.message`, an attribute only a CallbackQuery has: the
 * handler raises after the completion text, so that user never sees the
 * not-registered prompt. The rest of the model uses the intended reply,
 * UserHandlers.LoginMenuReplies.
 */
module Findings {
  import opened Optional
  import opened Strings
  import opened Dates
  import opened Chat
  import opened Database
  import opened UserHandlers
  import opened Fsm
  import opened Dispatch
  import opened Properties

  /** What login_menu was handed: the login button's callback, or a text message from a dialog handler. */
  datatype Trigger = FromButton | FromMessage

  /** login_menu as written; None is the AttributeError raised on the not-registered branch for a message. */
  function LoginMenuAsWritten(profile: seq<ProfileRow>, u: UserId, t: Trigger): (r: Option<seq<Reply>>)
    ensures r.None? <==> !HasProfile(profile, u) && t == FromMessage
    ensures r.Some? ==> r.value == LoginMenuReplies(profile, u)
  {
    var userSql := Select(profile, ProfileOwner, u);
    SelectProfileEmpty(profile, u);
    if userSql != [] then Some([Photo(Greeting)])
    else if t.FromButton? then Some([Say(StartNoReg, RegisterOnly)])
    else None
  }

  /**
   * process_save_subject as written: the row is stored and the state cleared
   * before login_menu runs, so an exception there only cuts the replies short.
   */
  function SaveSubjectAsWritten(w: World, u: UserId, text: string): Outcome
    requires PointsAccepted(text)
    requires NameSubjectKey in BagOf(w, u) && BagOf(w, u)[NameSubjectKey].Str?
  {
    var w1 := UpdateData(w, u, PointsSubjectKey, Num(ParseNat(text)));
    var data := BagOf(w1, u);
    var row := ScoreRow(u, data[NameSubjectKey].s, data[PointsSubjectKey].n);
    var w2 := ClearState(w1.(db := w1.db.(subjects := w1.db.subjects + [row])), u);
    var menu := LoginMenuAsWritten(w2.db.profile, u, FromMessage);
    Outcome(w2, [Say(CancelInputFsm, NoKeyboard)] + (if menu.Some? then menu.value else []))
  }

  /**
   * As written, a user without a profile who finishes score entry gets only
   * the completion text: the intended prompt to register is lost, while the
   * row and the cleared state are the same as intended.
   */
  lemma UnregisteredScoreEntryLosesPrompt(w: World, u: UserId, text: string)
    requires Inv(w) && StepOf(w, u) == PointsSubject && PointsAccepted(text)
    requires !HasProfile(w.db.profile, u)
    ensures NameSubjectKey in BagOf(w, u) && BagOf(w, u)[NameSubjectKey].Str?
    ensures SaveSubjectAsWritten(w, u, text).replies == [Say(CancelInputFsm, NoKeyboard)]
    ensures SaveSubjectAsWritten(w, u, text).world == SaveSubject(w, u, text).world
    ensures SaveSubject(w, u, text).replies != SaveSubjectAsWritten(w, u, text).replies
  {
    assert UserInv(w, u);
  }

  /** For a registered user the code as written and the intended behaviour agree. */
  lemma RegisteredScoreEntryAgrees(w: World, u: UserId, text: string)
    requires Inv(w) && StepOf(w, u) == PointsSubject && PointsAccepted(text)
    requires HasProfile(w.db.profile, u)
    ensures NameSubjectKey in BagOf(w, u) && BagOf(w, u)[NameSubjectKey].Str?
    ensures SaveSubjectAsWritten(w, u, text) == SaveSubject(w, u, text)
  {
    assert UserInv(w, u);
  }

  /**
   * Intended: a user without a profile who finishes score entry is told the
   * row was saved and then asked to register, with the registration keyboard.
   */
  lemma UnregisteredScoreEntryPrompts(w: World, u: UserId, text: string, today: Date)
    requires Inv(w) && ValidDate(today) && StepOf(w, u) == PointsSubject && PointsAccepted(text)
    requires !HasProfile(w.db.profile, u)
    ensures Transition(w, u, Message(text), today).replies
            == [Say(CancelInputFsm, NoKeyboard), Say(StartNoReg, RegisterOnly)]
  {
    PointsStep(w, u, text, today);
  }
}

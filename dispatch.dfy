/**
 * Handler precedence. The dispatcher tries the routers in the order they
 * were included (fsm, then the menu commands, then the echo fallback), and
 * within a router the handlers in the order they were registered; the first
 * handler whose filters all pass runs. Filters are checked left to right, so
 * the registration gate (the one filter with a side effect) only runs once
 * the command and state filters before it have passed, and its reply stays
 * sent when it rejects and the search goes on.
 */
module Dispatch {
  import opened Strings
  import opened Dates
  import opened Chat
  import opened Database
  import opened Registration
  import opened UserHandlers
  import opened OtherHandlers
  import opened Fsm

  /** The effect of one inbound event from `u`, processed to completion. */
  function Transition(w: World, u: UserId, ev: Event, today: Date): Outcome
    requires Inv(w) && ValidDate(today)
  {
    match ev
    case Message(text) => MessageOutcome(w, u, text, today)
    case Button(data) => ButtonOutcome(w, u, data)
  }

  /** First message handler of the fsm router: /register, in the default state, past the gate. */
  function MessageOutcome(w: World, u: UserId, text: string, today: Date): Outcome
    requires Inv(w) && ValidDate(today)
  {
    if IsCommand(text, "register") && StepOf(w, u) == Default then
      var gate := Gate(w.db.profile, u);
      if gate.pass then StartRegistration(w, u)
      else
        var rest := FsmRest(w, u, text, today);
        Outcome(rest.world, gate.replies + rest.replies)
    else FsmRest(w, u, text, today)
  }

  /**
   * The other ten message handlers of the fsm router, in registration order.
   * After /cancel (any state but the default one) every handler filters on
   * one state, and in each dialog state the last of them takes any text, so
   * the registration order comes down to a choice by state.
   */
  function FsmRest(w: World, u: UserId, text: string, today: Date): Outcome
    requires Inv(w) && ValidDate(today)
  {
    var s := StepOf(w, u);
    if IsCommand(text, "cancel") && s != Default then CancelFlow(w, u)
    else match s
      case FirstName => if IsAlphaStr(text) then NameSent(w, u, text) else Warn(w, ErrorFirstName)
      case LastName =>
        if IsAlphaStr(text) then
          assert UserInv(w, u);
          SaveProfile(w, u, text)
        else Warn(w, ErrorLastName)
      case Default => if IsCommand(text, "enter_scores") then EnterScores(w, u) else MenuOrEcho(w, u, text, today)
      case NameSubject => if IsAlphaStr(text) then SubjectSent(w, u, text) else Warn(w, ErrorNameSubject)
      case PointsSubject =>
        if PointsAccepted(text) then
          assert UserInv(w, u);
          SaveSubject(w, u, text)
        else Warn(w, ErrorPointsSubject)
  }

  /**
   * The menu router, then the echo fallback. The menu router's message
   * registration of login_menu filters on a callback payload, which a text
   * message never carries, so it never matches here.
   */
  function MenuOrEcho(w: World, u: UserId, text: string, today: Date): (r: Outcome)
    requires ValidDate(today)
    ensures r.world.step == w.step && r.world.bag == w.bag
    ensures r.world.db.profile == w.db.profile && r.world.db.subjects == w.db.subjects
  {
    if IsCommand(text, "start") then Outcome(w, StartBotReplies())
    else if IsCommand(text, "help") then Outcome(w, HelpReplies())
    else if IsCommand(text, "view_scores") then
      Outcome(w, ViewScoresReplies(Select(w.db.subjects, ScoreOwner, u)))
    else
      var echo := Echo(w.db, u, text, today);
      Outcome(w.(db := echo.0), echo.1)
  }

  /** Text that is none of the menu commands reaches the echo fallback. */
  lemma MenuFallsToEcho(w: World, u: UserId, text: string, today: Date)
    requires ValidDate(today)
    requires !IsCommand(text, "start") && !IsCommand(text, "help") && !IsCommand(text, "view_scores")
    ensures var echo := Echo(w.db, u, text, today);
            MenuOrEcho(w, u, text, today) == Outcome(w.(db := echo.0), echo.1)
  {
  }

  /** Outside the dialogs, text that is neither /register nor /enter_scores goes to the menu router. */
  lemma DefaultTextReachesMenu(w: World, u: UserId, text: string, today: Date)
    requires Inv(w) && ValidDate(today) && StepOf(w, u) == Default
    requires !IsCommand(text, "register") && !IsCommand(text, "enter_scores")
    ensures Transition(w, u, Message(text), today) == MenuOrEcho(w, u, text, today)
  {
    assert MessageOutcome(w, u, text, today) == FsmRest(w, u, text, today);
  }

  /** In a dialog step the /register handler's state filter fails, so the fsm router's other handlers decide. */
  lemma DialogReachesFsmRest(w: World, u: UserId, text: string, today: Date)
    requires Inv(w) && ValidDate(today) && StepOf(w, u) != Default
    ensures Transition(w, u, Message(text), today) == FsmRest(w, u, text, today)
  {
    assert MessageOutcome(w, u, text, today) == FsmRest(w, u, text, today);
  }

  /** Text that none of the menu commands takes and the fallback does not ignore: send_echo logs it. */
  predicate MenuEchoes(text: string) {
    !IsCommand(text, "start") && !IsCommand(text, "help") && !IsCommand(text, "view_scores")
    && text !in IgnoreMessages
  }

  /**
   * The messages whose text the echo fallback writes to the log: in the
   * default state, not /enter_scores, not a /register the gate lets
   * through, and a text the menu leaves to the fallback. Only these texts
   * are spliced into an INSERT.
   */
  predicate ReachesEcho(w: World, u: UserId, text: string) {
    StepOf(w, u) == Default && !IsCommand(text, "enter_scores")
    && !(IsCommand(text, "register") && !HasProfile(w.db.profile, u))
    && MenuEchoes(text)
  }

  /** The menu router and the fallback write a log row exactly for the texts the menu leaves to the fallback. */
  lemma MenuOrEchoLogs(w: World, u: UserId, text: string, today: Date)
    requires ValidDate(today)
    ensures MenuOrEcho(w, u, text, today).world.db.messages
            == if MenuEchoes(text) then w.db.messages + [MessageRow(u, text, FormatDate(today))] else w.db.messages
  {
    if MenuEchoes(text) {
      MenuFallsToEcho(w, u, text, today);
    } else if !IsCommand(text, "start") && !IsCommand(text, "help") && !IsCommand(text, "view_scores") {
      MenuFallsToEcho(w, u, text, today);
    }
  }

  /** The "register" button (payload start_reg) in the default state, past the gate; then the login button. */
  function ButtonOutcome(w: World, u: UserId, data: string): Outcome {
    if data == "start_reg" && StepOf(w, u) == Default then
      var gate := Gate(w.db.profile, u);
      if gate.pass then StartRegistration(w, u)
      else
        var rest := LoginButton(w, u, data);
        Outcome(rest.world, gate.replies + rest.replies)
    else LoginButton(w, u, data)
  }

  /** login_menu's callback registration: payload "login", in any state. */
  function LoginButton(w: World, u: UserId, data: string): Outcome {
    if data == "login" then Outcome(w, LoginMenuReplies(w.db.profile, u)) else Outcome(w, [])
  }

  /** Every event keeps the invariant of the FSM storage and the store. */
  lemma TransitionKeepsInv(w: World, u: UserId, ev: Event, today: Date)
    requires Inv(w) && ValidDate(today)
    ensures Inv(Transition(w, u, ev, today).world)
  {
    match ev
    case Button(data) =>
      if data == "start_reg" && StepOf(w, u) == Default && Gate(w.db.profile, u).pass {
        StartRegistrationKeepsInv(w, u);
      }
    case Message(text) =>
      if IsCommand(text, "register") && StepOf(w, u) == Default && Gate(w.db.profile, u).pass {
        StartRegistrationKeepsInv(w, u);
      } else {
        assert MessageOutcome(w, u, text, today).world == FsmRest(w, u, text, today).world;
        FsmRestKeepsInv(w, u, text, today);
      }
  }

  lemma FsmRestKeepsInv(w: World, u: UserId, text: string, today: Date)
    requires Inv(w) && ValidDate(today)
    ensures Inv(FsmRest(w, u, text, today).world)
  {
    var s := StepOf(w, u);
    if IsCommand(text, "cancel") && s != Default {
      CancelKeepsInv(w, u);
    } else {
      match s
      case FirstName =>
        if IsAlphaStr(text) { NameSentKeepsInv(w, u, text); }
      case LastName =>
        if IsAlphaStr(text) { SaveProfileKeepsInv(w, u, text); }
      case Default =>
        if IsCommand(text, "enter_scores") { EnterScoresKeepsInv(w, u); }
        else { MenuOrEchoKeepsInv(w, u, text, today); }
      case NameSubject =>
        if IsAlphaStr(text) { SubjectSentKeepsInv(w, u, text); }
      case PointsSubject =>
        if PointsAccepted(text) { SaveSubjectKeepsInv(w, u, text); }
    }
  }

  lemma MenuOrEchoKeepsInv(w: World, u: UserId, text: string, today: Date)
    requires Inv(w) && ValidDate(today)
    ensures Inv(MenuOrEcho(w, u, text, today).world)
  {
    InvSameState(w, MenuOrEcho(w, u, text, today).world);
  }

  /** Runs one event through the routers, in place on the bot's state. */
  method Handle(bot: Bot, u: UserId, ev: Event, today: Date) returns (replies: seq<Reply>)
    requires bot.Valid() && ValidDate(today)
    requires ev.Message? && ReachesEcho(bot.Model(), u, ev.text) ==> SqlSafe(ev.text)
    modifies bot, bot.store`profile, bot.store`subjects, bot.store`messages
    ensures bot.Valid()
    ensures Outcome(bot.Model(), replies) == Transition(old(bot.Model()), u, ev, today)
  {
    ghost var w := bot.Model();
    match ev {
      case Message(text) =>
        replies := HandleMessage(bot, u, text, today);
      case Button(data) =>
        replies := HandleButton(bot, u, data);
    }
    TransitionKeepsInv(w, u, ev, today);
  }

  method HandleMessage(bot: Bot, u: UserId, text: string, today: Date) returns (replies: seq<Reply>)
    requires bot.Valid() && ValidDate(today)
    requires ReachesEcho(bot.Model(), u, text) ==> SqlSafe(text)
    modifies bot, bot.store`profile, bot.store`subjects, bot.store`messages
    ensures Outcome(bot.Model(), replies) == MessageOutcome(old(bot.Model()), u, text, today)
  {
    if IsCommand(text, "register") && StepOf(bot.Model(), u) == Default {
      var pass, gateReplies := RegistrationFilter(bot.store, u);
      if pass {
        replies := bot.ProcessStartRegistration(u);
      } else {
        var rest := RunFsmRest(bot, u, text, today);
        replies := gateReplies + rest;
      }
    } else {
      replies := RunFsmRest(bot, u, text, today);
    }
  }

  method RunFsmRest(bot: Bot, u: UserId, text: string, today: Date) returns (replies: seq<Reply>)
    requires bot.Valid() && ValidDate(today)
    requires StepOf(bot.Model(), u) == Default && !IsCommand(text, "enter_scores") && MenuEchoes(text) ==> SqlSafe(text)
    modifies bot, bot.store`profile, bot.store`subjects, bot.store`messages
    ensures Outcome(bot.Model(), replies) == FsmRest(old(bot.Model()), u, text, today)
  {
    var s := StepOf(bot.Model(), u);
    assert UserInv(bot.Model(), u);
    if IsCommand(text, "cancel") && s != Default {
      replies := bot.ProcessCancelCommandState(u);
    } else {
      match s
      case FirstName =>
        if IsAlphaStr(text) {
          replies := bot.ProcessNameSent(u, text);
        } else {
          replies := bot.WarningNot(ErrorFirstName);
        }
      case LastName =>
        if IsAlphaStr(text) {
          replies := bot.ProcessSaveProfile(u, text);
        } else {
          replies := bot.WarningNot(ErrorLastName);
        }
      case Default =>
        if IsCommand(text, "enter_scores") {
          replies := bot.MakeEnterNameSubject(u);
        } else {
          replies := RunMenuOrEcho(bot, u, text, today);
        }
      case NameSubject =>
        if IsAlphaStr(text) {
          replies := bot.MakeEnterPointsSubject(u, text);
        } else {
          replies := bot.WarningNot(ErrorNameSubject);
        }
      case PointsSubject =>
        if PointsAccepted(text) {
          replies := bot.ProcessSaveSubject(u, text);
        } else {
          replies := bot.WarningNot(ErrorPointsSubject);
        }
    }
  }

  method RunMenuOrEcho(bot: Bot, u: UserId, text: string, today: Date) returns (replies: seq<Reply>)
    requires bot.store.ready && ValidDate(today)
    requires MenuEchoes(text) ==> SqlSafe(text)
    modifies bot.store`messages
    ensures Outcome(bot.Model(), replies) == MenuOrEcho(old(bot.Model()), u, text, today)
  {
    ghost var w := bot.Model();
    if IsCommand(text, "start") {
      replies := StartBotReplies();
    } else if IsCommand(text, "help") {
      replies := HelpReplies();
    } else if IsCommand(text, "view_scores") {
      replies := ViewScores(bot.store, u);
    } else {
      replies := SendEcho(bot.store, u, text, today);
      ghost var echo := Echo(w.db, u, text, today);
      assert bot.store.Contents() == echo.0;
      assert bot.Model() == w.(db := echo.0);
    }
  }

  method HandleButton(bot: Bot, u: UserId, data: string) returns (replies: seq<Reply>)
    requires bot.Valid()
    modifies bot
    ensures Outcome(bot.Model(), replies) == ButtonOutcome(old(bot.Model()), u, data)
  {
    if data == "start_reg" && StepOf(bot.Model(), u) == Default {
      var pass, gateReplies := RegistrationFilter(bot.store, u);
      if pass {
        replies := bot.ProcessStartRegistration(u);
      } else {
        var rest := RunLoginButton(bot, u, data);
        replies := gateReplies + rest;
      }
    } else {
      replies := RunLoginButton(bot, u, data);
    }
  }

  method RunLoginButton(bot: Bot, u: UserId, data: string) returns (replies: seq<Reply>)
    requires bot.store.ready
    ensures replies == LoginButton(bot.Model(), u, data).replies
  {
    if data == "login" {
      replies := LoginMenu(bot.store, u);
    } else {
      replies := [];
    }
  }
}

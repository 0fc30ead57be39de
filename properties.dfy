/**
 * What the dispatcher and the two dialogs promise, stated over Transition:
 * who may start a dialog, what each step accepts, what cancel does, that
 * the dialogs cannot interleave, and that the tables only ever grow.
 */
module Properties {
  import opened Optional
  import opened Strings
  import opened Dates
  import opened Chat
  import opened Database
  import opened Registration
  import opened UserHandlers
  import opened OtherHandlers
  import opened Fsm
  import opened Dispatch

  /** The two ways to ask for registration: the /register command and the button with payload start_reg. */
  predicate AsksToRegister(ev: Event) {
    (ev.Message? && IsCommand(ev.text, "register")) || (ev.Button? && ev.data == "start_reg")
  }

  /** The error text each dialog step answers invalid input with. */
  function ErrorFor(s: Step): Phrase
    requires s != Default
  {
    match s
    case FirstName => ErrorFirstName
    case LastName => ErrorLastName
    case NameSubject => ErrorNameSubject
    case PointsSubject => ErrorPointsSubject
  }

  lemma CommandNamesDiffer(text: string, a: string, b: string)
    requires IsCommand(text, a) && IsCommand(text, b)
    ensures a == b
  {
    assert a == ("/" + a)[1..] && b == ("/" + b)[1..];
  }

  /** How the command filters read the literal text "/register". */
  lemma RegisterText()
    ensures IsCommand("/register", "register")
    ensures !IsCommand("/register", "cancel") && !IsCommand("/register", "enter_scores")
    ensures !IsCommand("/register", "start") && !IsCommand("/register", "help") && !IsCommand("/register", "view_scores")
  {
    SingleWordCommand("/register", "register");
    SingleWordCommand("/register", "cancel");
    SingleWordCommand("/register", "enter_scores");
    SingleWordCommand("/register", "start");
    SingleWordCommand("/register", "help");
    SingleWordCommand("/register", "view_scores");
  }

  lemma NotRegisterText(text: string)
    requires !IsCommand(text, "register")
    ensures text != "/register"
  {
    RegisterText();
  }

  /**
   * Registration starts for an unregistered user in the default state: the
   * step becomes first_name, one name prompt is sent, nothing else changes.
   */
  lemma RegistrationStarts(w: World, u: UserId, ev: Event, today: Date)
    requires Inv(w) && ValidDate(today)
    requires StepOf(w, u) == Default && !HasProfile(w.db.profile, u) && AsksToRegister(ev)
    ensures Transition(w, u, ev, today) == Outcome(SetState(w, u, FirstName), [Say(InputFirstName, NoKeyboard)])
  {
  }

  /**
   * A registered user asking to register gets exactly one reply, the gate's
   * rejection; the fallback ignores the exact /register text, so nothing is logged.
   */
  lemma RegisteredUserRejected(w: World, u: UserId, ev: Event, today: Date)
    requires Inv(w) && ValidDate(today)
    requires StepOf(w, u) == Default && HasProfile(w.db.profile, u)
    requires ev == Message("/register") || ev == Button("start_reg")
    ensures Transition(w, u, ev, today) == Outcome(w, [Say(StartMessage, NoKeyboard)])
  {
    if ev.Message? {
      RegisterMessageRejected(w, u, today);
    } else {
      assert ButtonOutcome(w, u, "start_reg") == Outcome(w, Gate(w.db.profile, u).replies + []);
    }
  }

  /** The /register text from a registered user: the gate's reply, then the fallback ignores it. */
  lemma RegisterMessageRejected(w: World, u: UserId, today: Date)
    requires Inv(w) && ValidDate(today)
    requires StepOf(w, u) == Default && HasProfile(w.db.profile, u)
    ensures MessageOutcome(w, u, "/register", today) == Outcome(w, [Say(StartMessage, NoKeyboard)])
  {
    var gate := Gate(w.db.profile, u);
    assert !gate.pass && gate.replies == [Say(StartMessage, NoKeyboard)];
    RegisterText();
    assert FsmRest(w, u, "/register", today) == MenuOrEcho(w, u, "/register", today);
    MenuFallsToEcho(w, u, "/register", today);
    assert MenuOrEcho(w, u, "/register", today) == Outcome(w, []);
  }

  /**
   * The first_name step is entered only by a registration request from the
   * default state past the gate.
   */
  lemma OnlyRegistrationEntersFirstName(w: World, u: UserId, ev: Event, today: Date)
    requires Inv(w) && ValidDate(today) && StepOf(w, u) != FirstName
    ensures StepOf(Transition(w, u, ev, today).world, u) == FirstName
            <==> StepOf(w, u) == Default && !HasProfile(w.db.profile, u) && AsksToRegister(ev)
  {
    assert UserInv(w, u);
  }

  /**
   * In first_name, a letters-only text is kept as the first name and the
   * step becomes last_name; any other text except /cancel gets the error
   * reply and changes nothing.
   */
  lemma FirstNameStep(w: World, u: UserId, text: string, today: Date)
    requires Inv(w) && ValidDate(today) && StepOf(w, u) == FirstName
    ensures IsAlphaStr(text) ==>
              Transition(w, u, Message(text), today)
              == Outcome(SetState(UpdateData(w, u, FirstNameKey, Str(text)), u, LastName), [Say(InputLastName, NoKeyboard)])
    ensures IsAlphaStr(text) ==> BagOf(Transition(w, u, Message(text), today).world, u) == map[FirstNameKey := Str(text)]
    ensures !IsAlphaStr(text) && !IsCommand(text, "cancel") ==>
              Transition(w, u, Message(text), today) == Outcome(w, [Say(ErrorFirstName, NoKeyboard)])
  {
    assert UserInv(w, u);
    if IsAlphaStr(text) && IsCommand(text, "cancel") { CommandIsNotInput(text, "cancel"); }
  }

  /**
   * In last_name, a letters-only text appends exactly one profile row (user,
   * first name from the bag, this text), leaves the user in the default
   * state with an empty bag, and sends the completion text and the greeting.
   */
  lemma LastNameStep(w: World, u: UserId, text: string, today: Date)
    requires Inv(w) && ValidDate(today) && StepOf(w, u) == LastName && IsAlphaStr(text)
    ensures FirstNameKey in BagOf(w, u) && BagOf(w, u)[FirstNameKey].Str?
    ensures var r := Transition(w, u, Message(text), today);
            && r.world.db == w.db.(profile := w.db.profile + [ProfileRow(u, BagOf(w, u)[FirstNameKey].s, text)])
            && StepOf(r.world, u) == Default && BagOf(r.world, u) == map[]
            && r.replies == [Say(CancelInputFsm, NoKeyboard), Photo(Greeting)]
  {
    assert UserInv(w, u);
    DialogReachesFsmRest(w, u, text, today);
    if IsCommand(text, "cancel") { CommandIsNotInput(text, "cancel"); }
    assert FsmRest(w, u, text, today) == SaveProfile(w, u, text);
    SaveProfileForNewUser(w, u, text);
  }

  /** In last_name, any text that is not letters only, except /cancel, gets the error reply and changes nothing. */
  lemma LastNameRejected(w: World, u: UserId, text: string, today: Date)
    requires Inv(w) && ValidDate(today) && StepOf(w, u) == LastName
    requires !IsAlphaStr(text) && !IsCommand(text, "cancel")
    ensures Transition(w, u, Message(text), today) == Outcome(w, [Say(ErrorLastName, NoKeyboard)])
  {
    assert UserInv(w, u);
    DialogReachesFsmRest(w, u, text, today);
    assert FsmRest(w, u, text, today) == Warn(w, ErrorLastName);
  }

  /** /enter_scores in the default state asks for the subject, whether or not the user is registered. */
  lemma EnterScoresStarts(w: World, u: UserId, text: string, today: Date)
    requires Inv(w) && ValidDate(today) && StepOf(w, u) == Default && IsCommand(text, "enter_scores")
    ensures Transition(w, u, Message(text), today) == Outcome(SetState(w, u, NameSubject), [Say(InputNameSubject, NoKeyboard)])
  {
    if IsCommand(text, "register") { CommandNamesDiffer(text, "register", "enter_scores"); }
  }

  /** In name_subject, a letters-only text is kept as the subject; anything else but /cancel changes nothing. */
  lemma NameSubjectStep(w: World, u: UserId, text: string, today: Date)
    requires Inv(w) && ValidDate(today) && StepOf(w, u) == NameSubject
    ensures IsAlphaStr(text) ==>
              Transition(w, u, Message(text), today)
              == Outcome(SetState(UpdateData(w, u, NameSubjectKey, Str(text)), u, PointsSubject), [Say(InputPointsSubject, NoKeyboard)])
    ensures !IsAlphaStr(text) && !IsCommand(text, "cancel") ==>
              Transition(w, u, Message(text), today) == Outcome(w, [Say(ErrorNameSubject, NoKeyboard)])
  {
    if IsAlphaStr(text) && IsCommand(text, "cancel") { CommandIsNotInput(text, "cancel"); }
  }

  /**
   * In points_subject a text is accepted exactly when it is a digit string
   * whose value is at most 100: then one score row with that integer value
   * is appended and the state is cleared; otherwise (except /cancel) the
   * error reply is sent and no row is written.
   */
  lemma PointsStep(w: World, u: UserId, text: string, today: Date)
    requires Inv(w) && ValidDate(today) && StepOf(w, u) == PointsSubject
    ensures NameSubjectKey in BagOf(w, u) && BagOf(w, u)[NameSubjectKey].Str?
    ensures PointsAccepted(text) ==>
              var r := Transition(w, u, Message(text), today);
              && r.world.db == w.db.(subjects := w.db.subjects + [ScoreRow(u, BagOf(w, u)[NameSubjectKey].s, ParseNat(text))])
              && StepOf(r.world, u) == Default && BagOf(r.world, u) == map[]
              && r.replies == [Say(CancelInputFsm, NoKeyboard)] + LoginMenuReplies(w.db.profile, u)
    ensures !PointsAccepted(text) && !IsCommand(text, "cancel") ==>
              Transition(w, u, Message(text), today) == Outcome(w, [Say(ErrorPointsSubject, NoKeyboard)])
  {
    assert UserInv(w, u);
    if PointsAccepted(text) && IsCommand(text, "cancel") { CommandIsNotInput(text, "cancel"); }
  }

  /** The points filter on the inputs the dialog is meant for and against. */
  lemma PointsExamples()
    ensures PointsAccepted("0") && ParseNat("0") == 0
    ensures PointsAccepted("100") && ParseNat("100") == 100
    ensures PointsAccepted("007") && ParseNat("007") == 7
    ensures !PointsAccepted("101") && !PointsAccepted("-5") && !PointsAccepted("8.5")
  {
    assert "100"[..2] == "10" && "10"[..1] == "1";
    assert "007"[..2] == "00" && "00"[..1] == "0";
    assert "101"[..2] == "10";
    assert "-5"[0] == '-' && "8.5"[1] == '.';
  }

  /** Every score from 0 to 100 can be entered, with or without leading zeros, and is stored as itself. */
  lemma {:induction false} EveryScoreAccepted(n: nat, zeros: nat)
    requires n <= 100
    ensures var s := seq(zeros, _ => '0') + ShowNat(n);
            PointsAccepted(s) && ParseNat(s) == n
  {
    var s := seq(zeros, _ => '0') + ShowNat(n);
    if zeros == 0 {
      assert s == ShowNat(n);
      ParseShowNat(n);
    } else {
      var t := seq(zeros - 1, _ => '0') + ShowNat(n);
      EveryScoreAccepted(n, zeros - 1);
      assert s == "0" + t;
      ParseLeadingZero(t);
    }
  }

  /** /cancel in any dialog step clears the state and the bag and sends one cancellation text. */
  lemma CancelResets(w: World, u: UserId, text: string, today: Date)
    requires Inv(w) && ValidDate(today) && StepOf(w, u) != Default && IsCommand(text, "cancel")
    ensures Transition(w, u, Message(text), today) == Outcome(ClearState(w, u), [Say(Cancel, NoKeyboard)])
  {
  }

  /** /cancel in the default state has no handler of its own and falls through to the echo fallback. */
  lemma CancelInDefaultEchoes(w: World, u: UserId, text: string, today: Date)
    requires Inv(w) && ValidDate(today) && StepOf(w, u) == Default && IsCommand(text, "cancel")
    ensures Transition(w, u, Message(text), today)
            == Outcome(w.(db := w.db.(messages := w.db.messages + [MessageRow(u, text, FormatDate(today))])),
                       [Say(EchoMessageBot, NoKeyboard)])
  {
    if IsCommand(text, "register") { CommandNamesDiffer(text, "cancel", "register"); }
    if IsCommand(text, "enter_scores") { CommandNamesDiffer(text, "cancel", "enter_scores"); }
    if IsCommand(text, "start") { CommandNamesDiffer(text, "cancel", "start"); }
    if IsCommand(text, "help") { CommandNamesDiffer(text, "cancel", "help"); }
    if IsCommand(text, "view_scores") { CommandNamesDiffer(text, "cancel", "view_scores"); }
    FreeTextEchoed(w, u, text, today);
  }

  /**
   * The dialogs cannot interleave: in a dialog step every command other than
   * /cancel (/register, /enter_scores, /start, ...) fails the step's input
   * check and gets that step's error reply; state, bag and tables stay as they were.
   */
  lemma CommandsMidDialogRejected(w: World, u: UserId, text: string, name: string, today: Date)
    requires Inv(w) && ValidDate(today) && StepOf(w, u) != Default
    requires IsCommand(text, name) && name != "cancel"
    ensures Transition(w, u, Message(text), today) == Outcome(w, [Say(ErrorFor(StepOf(w, u)), NoKeyboard)])
  {
    CommandIsNotInput(text, name);
    if IsCommand(text, "cancel") { CommandNamesDiffer(text, name, "cancel"); }
  }

  /**
   * In a dialog step a message is handled by the fsm router alone: exactly
   * one of the step's handlers runs, nothing is logged and no echo is sent.
   */
  lemma DialogMessagesStayInFsm(w: World, u: UserId, text: string, today: Date)
    requires Inv(w) && ValidDate(today) && StepOf(w, u) != Default
    ensures var r := Transition(w, u, Message(text), today);
            r.world.db.messages == w.db.messages && Say(EchoMessageBot, NoKeyboard) !in r.replies
            && |r.replies| >= 1
  {
    assert UserInv(w, u);
    DialogReachesFsmRest(w, u, text, today);
    var s := StepOf(w, u);
    if IsCommand(text, "cancel") {
      assert FsmRest(w, u, text, today) == CancelFlow(w, u);
    } else if s == LastName && IsAlphaStr(text) {
      assert FsmRest(w, u, text, today) == SaveProfile(w, u, text);
      SaveProfileForNewUser(w, u, text);
    } else if s == PointsSubject && PointsAccepted(text) {
      assert FsmRest(w, u, text, today) == SaveSubject(w, u, text);
    }
  }

  /** Each table of `db'` keeps the rows of `db` in place at its start. */
  ghost predicate Extends(db: Tables, db': Tables) {
    db.profile <= db'.profile && db.subjects <= db'.subjects && db.messages <= db'.messages
  }

  lemma SaveProfileExtends(w: World, u: UserId, text: string)
    requires FirstNameKey in BagOf(w, u) && BagOf(w, u)[FirstNameKey].Str?
    ensures Extends(w.db, SaveProfile(w, u, text).world.db)
  {
  }

  lemma SaveSubjectExtends(w: World, u: UserId, text: string)
    requires PointsAccepted(text)
    requires NameSubjectKey in BagOf(w, u) && BagOf(w, u)[NameSubjectKey].Str?
    ensures Extends(w.db, SaveSubject(w, u, text).world.db)
  {
  }

  lemma MenuOrEchoExtends(w: World, u: UserId, text: string, today: Date)
    requires ValidDate(today)
    ensures Extends(w.db, MenuOrEcho(w, u, text, today).world.db)
  {
    MenuOrEchoLogs(w, u, text, today);
  }

  lemma FsmRestExtends(w: World, u: UserId, text: string, today: Date)
    requires Inv(w) && ValidDate(today)
    ensures Extends(w.db, FsmRest(w, u, text, today).world.db)
  {
    var s := StepOf(w, u);
    assert UserInv(w, u);
    if IsCommand(text, "cancel") && s != Default {
      assert FsmRest(w, u, text, today) == CancelFlow(w, u);
    } else {
      match s
      case LastName =>
        if IsAlphaStr(text) {
          assert FsmRest(w, u, text, today) == SaveProfile(w, u, text);
          SaveProfileExtends(w, u, text);
        }
      case PointsSubject =>
        if PointsAccepted(text) {
          assert FsmRest(w, u, text, today) == SaveSubject(w, u, text);
          SaveSubjectExtends(w, u, text);
        }
      case Default =>
        if !IsCommand(text, "enter_scores") {
          assert FsmRest(w, u, text, today) == MenuOrEcho(w, u, text, today);
          MenuOrEchoExtends(w, u, text, today);
        }
      case FirstName =>
      case NameSubject =>
    }
  }

  lemma MessageExtends(w: World, u: UserId, text: string, today: Date)
    requires Inv(w) && ValidDate(today)
    ensures Extends(w.db, MessageOutcome(w, u, text, today).world.db)
  {
    FsmRestExtends(w, u, text, today);
  }

  /**
   * Tables only grow, and only at the end: every event leaves each table's
   * old rows in place, so a registered user stays registered.
   */
  lemma TablesOnlyGrow(w: World, u: UserId, ev: Event, today: Date, v: UserId)
    requires Inv(w) && ValidDate(today)
    ensures var db := Transition(w, u, ev, today).world.db;
            w.db.profile <= db.profile && w.db.subjects <= db.subjects && w.db.messages <= db.messages
            && (HasProfile(w.db.profile, v) ==> HasProfile(db.profile, v))
  {
    var db := Transition(w, u, ev, today).world.db;
    if ev.Message? {
      MessageExtends(w, u, ev.text, today);
    }
    assert Extends(w.db, db);
    if HasProfile(w.db.profile, v) {
      var i :| 0 <= i < |w.db.profile| && w.db.profile[i].userId == v;
      assert db.profile[i] == w.db.profile[i];
    }
  }

  /**
   * A message is written to the log exactly when it reaches the echo
   * fallback, which is what ReachesEcho describes; the row carries the
   * sender, the text and the receipt day.
   */
  lemma LoggedExactlyWhenEchoed(w: World, u: UserId, text: string, today: Date)
    requires Inv(w) && ValidDate(today)
    ensures Transition(w, u, Message(text), today).world.db.messages
            == if ReachesEcho(w, u, text) then w.db.messages + [MessageRow(u, text, FormatDate(today))]
               else w.db.messages
  {
    if StepOf(w, u) != Default {
      DialogMessagesStayInFsm(w, u, text, today);
    } else if IsCommand(text, "enter_scores") {
      EnterScoresStarts(w, u, text, today);
    } else if IsCommand(text, "register") && !HasProfile(w.db.profile, u) {
      RegistrationStarts(w, u, Message(text), today);
    } else if IsCommand(text, "register") {
      assert MessageOutcome(w, u, text, today).world == FsmRest(w, u, text, today).world;
      assert FsmRest(w, u, text, today) == MenuOrEcho(w, u, text, today);
      MenuOrEchoLogs(w, u, text, today);
    } else {
      DefaultTextReachesMenu(w, u, text, today);
      MenuOrEchoLogs(w, u, text, today);
    }
  }

  /** Free text in the default state is logged with the receipt date and answered with one echo. */
  lemma FreeTextEchoed(w: World, u: UserId, text: string, today: Date)
    requires Inv(w) && ValidDate(today) && StepOf(w, u) == Default
    requires !IsCommand(text, "register") && !IsCommand(text, "enter_scores")
    requires !IsCommand(text, "start") && !IsCommand(text, "help") && !IsCommand(text, "view_scores")
    ensures Transition(w, u, Message(text), today)
            == Outcome(w.(db := w.db.(messages := w.db.messages + [MessageRow(u, text, FormatDate(today))])),
                       [Say(EchoMessageBot, NoKeyboard)])
  {
    NotRegisterText(text);
    DefaultTextReachesMenu(w, u, text, today);
    MenuFallsToEcho(w, u, text, today);
    assert Echo(w.db, u, text, today).0 == w.db.(messages := w.db.messages + [MessageRow(u, text, FormatDate(today))]);
  }

  /** /view_scores in the default state answers from the user's stored scores and writes nothing. */
  lemma ViewScoresReadsOnly(w: World, u: UserId, text: string, today: Date)
    requires Inv(w) && ValidDate(today) && StepOf(w, u) == Default && IsCommand(text, "view_scores")
    ensures Transition(w, u, Message(text), today) == Outcome(w, ViewScoresReplies(Select(w.db.subjects, ScoreOwner, u)))
  {
    if IsCommand(text, "register") { CommandNamesDiffer(text, "register", "view_scores"); }
    if IsCommand(text, "enter_scores") { CommandNamesDiffer(text, "enter_scores", "view_scores"); }
    if IsCommand(text, "start") { CommandNamesDiffer(text, "start", "view_scores"); }
    if IsCommand(text, "help") { CommandNamesDiffer(text, "help", "view_scores"); }
  }

  /** /start in the default state sends one reply carrying the register + log in keyboard. */
  lemma StartShowsMenu(w: World, u: UserId, text: string, today: Date)
    requires Inv(w) && ValidDate(today) && StepOf(w, u) == Default && IsCommand(text, "start")
    ensures Transition(w, u, Message(text), today) == Outcome(w, [Say(StartReg, RegisterOrLogin)])
  {
    if IsCommand(text, "register") { CommandNamesDiffer(text, "register", "start"); }
    if IsCommand(text, "enter_scores") { CommandNamesDiffer(text, "enter_scores", "start"); }
  }

  /** The login button works in every state, changes nothing, and answers by registration status. */
  lemma LoginButtonAnswers(w: World, u: UserId, today: Date)
    requires Inv(w) && ValidDate(today)
    ensures var r := Transition(w, u, Button("login"), today);
            r.world == w && r.replies == LoginMenuReplies(w.db.profile, u)
            && (r.replies == [Photo(Greeting)] <==> HasProfile(w.db.profile, u))
  {
  }
}

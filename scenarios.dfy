/**
 * Whole conversations from a fresh start (no state, empty tables), each
 * event fed to Transition in turn.
 */
module Scenarios {
  import opened Strings
  import opened Dates
  import opened Chat
  import opened Database
  import opened UserHandlers
  import opened Fsm
  import opened Dispatch
  import opened Properties

  /** A freshly started bot: nobody in a dialog, nothing stored. */
  function Fresh(): (w: World)
    ensures Inv(w)
  {
    World(map[], map[], Tables([], [], []))
  }

  lemma AnnaIsName()
    ensures IsAlphaStr("Anna") && IsAlphaStr("Ivanova") && IsAlphaStr("Math")
  {
  }

  lemma Math2IsNotName()
    ensures !IsAlphaStr("Math2") && !IsCommand("Math2", "cancel")
  {
    assert "Math2"[4] == '2';
    SingleWordCommand("Math2", "cancel");
  }

  lemma EightySevenAccepted()
    ensures PointsAccepted("87") && ParseNat("87") == 87
  {
    assert "87"[..1] == "8";
  }

  /** User 42 has asked to register and is asked for a first name. */
  function AwaitingFirstName(): (w: World)
    ensures Inv(w)
  {
    var w := World(map[42 := FirstName], map[], Tables([], [], []));
    assert forall v :: UserInv(w, v) by {
      forall v ensures UserInv(w, v) {
        assert BagOf(w, v) == map[];
      }
    }
    w
  }

  /** User 42 has given the first name Anna and is asked for a last name. */
  function AwaitingLastName(): (w: World)
    ensures Inv(w)
  {
    var w := World(map[42 := LastName], map[42 := map[FirstNameKey := Str("Anna")]], Tables([], [], []));
    AnnaIsName();
    assert forall v :: UserInv(w, v) by {
      forall v ensures UserInv(w, v) {
        if v == 42 {
          assert BagOf(w, v).Keys == {FirstNameKey};
        }
      }
    }
    w
  }

  /** User 7 has asked to enter scores and is asked for the subject. */
  function AwaitingSubject(): (w: World)
    ensures Inv(w)
  {
    var w := World(map[7 := NameSubject], map[], Tables([], [], []));
    assert forall v :: UserInv(w, v) by {
      forall v ensures UserInv(w, v) {
        assert BagOf(w, v) == map[];
      }
    }
    w
  }

  /** User 7, having named the subject Math, is asked for the points. */
  function AwaitingMathPoints(): (w: World)
    ensures Inv(w)
  {
    var w := World(map[7 := PointsSubject], map[7 := map[NameSubjectKey := Str("Math")]], Tables([], [], []));
    AnnaIsName();
    assert forall v :: UserInv(w, v) by {
      forall v ensures UserInv(w, v) {
        if v == 7 {
          assert BagOf(w, v).Keys == {NameSubjectKey};
        }
      }
    }
    w
  }

  /** User 42, unregistered, sends /register to a fresh bot and is asked for a first name. */
  lemma RegisterFromFresh(today: Date)
    requires ValidDate(today)
    ensures Transition(Fresh(), 42, Message("/register"), today)
            == Outcome(AwaitingFirstName(), [Say(InputFirstName, NoKeyboard)])
  {
    SingleWordCommand("/register", "register");
    assert MessageOutcome(Fresh(), 42, "/register", today) == StartRegistration(Fresh(), 42);
    assert SetState(Fresh(), 42, FirstName) == AwaitingFirstName();
  }

  /** "Anna" is kept as the first name; the last name is asked for. */
  lemma FirstNameAnna(today: Date)
    requires ValidDate(today)
    ensures Transition(AwaitingFirstName(), 42, Message("Anna"), today)
            == Outcome(AwaitingLastName(), [Say(InputLastName, NoKeyboard)])
  {
    AnnaIsName();
    FirstNameStep(AwaitingFirstName(), 42, "Anna", today);
  }

  /**
   * "Ivanova" completes the registration: load_user then returns exactly
   * the one row (42, "Anna", "Ivanova"), and the greeting is shown.
   */
  lemma LastNameIvanova(today: Date)
    requires ValidDate(today)
    ensures var r := Transition(AwaitingLastName(), 42, Message("Ivanova"), today);
            && Select(r.world.db.profile, ProfileOwner, 42) == [ProfileRow(42, "Anna", "Ivanova")]
            && StepOf(r.world, 42) == Default && BagOf(r.world, 42) == map[]
            && r.replies == [Say(CancelInputFsm, NoKeyboard), Photo(Greeting)]
  {
    var w := AwaitingLastName();
    AnnaIsName();
    LastNameStep(w, 42, "Ivanova", today);
    LoadAfterCreate([], 42, "Anna", "Ivanova");
  }

  /** User 7 sends /enter_scores to a fresh bot and is asked for the subject; no registration is needed. */
  lemma EnterScoresFromFresh(today: Date)
    requires ValidDate(today)
    ensures Transition(Fresh(), 7, Message("/enter_scores"), today)
            == Outcome(AwaitingSubject(), [Say(InputNameSubject, NoKeyboard)])
  {
    SingleWordCommand("/enter_scores", "enter_scores");
    EnterScoresStarts(Fresh(), 7, "/enter_scores", today);
  }

  /** "Math" is kept as the subject; the points are asked for. */
  lemma SubjectMath(today: Date)
    requires ValidDate(today)
    ensures Transition(AwaitingSubject(), 7, Message("Math"), today)
            == Outcome(AwaitingMathPoints(), [Say(InputPointsSubject, NoKeyboard)])
  {
    AnnaIsName();
    NameSubjectStep(AwaitingSubject(), 7, "Math", today);
  }

  /**
   * "87" stores the one row (7, "Math", 87) and returns user 7 to the
   * default state, with the completion text and, as user 7 has no profile,
   * the not-registered prompt.
   */
  lemma PointsEightySeven(today: Date)
    requires ValidDate(today)
    ensures var r := Transition(AwaitingMathPoints(), 7, Message("87"), today);
            && r.world.db.subjects == [ScoreRow(7, "Math", 87)]
            && StepOf(r.world, 7) == Default && BagOf(r.world, 7) == map[]
            && r.replies == [Say(CancelInputFsm, NoKeyboard), Say(StartNoReg, RegisterOnly)]
  {
    var w := AwaitingMathPoints();
    EightySevenAccepted();
    PointsStep(w, 7, "87", today);
    assert !HasProfile(w.db.profile, 7);
  }

  /** "Math2" as the subject is refused: user 7 stays in name_subject and nothing is written. */
  lemma SubjectWithDigitRejected(today: Date)
    requires ValidDate(today)
    ensures Transition(AwaitingSubject(), 7, Message("Math2"), today)
            == Outcome(AwaitingSubject(), [Say(ErrorNameSubject, NoKeyboard)])
  {
    Math2IsNotName();
    NameSubjectStep(AwaitingSubject(), 7, "Math2", today);
  }
}

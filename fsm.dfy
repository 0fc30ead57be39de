/**
 * The per-user conversation state machine of the registration and score
 * entry dialogs. Each user has a step (the default state or one of the four
 * FSMFillForm states) and a data bag of partial answers. The pure functions
 * below give the effect of each handler on the whole world (steps, bags and
 * tables); class Bot holds the same state and runs the handlers in place.
 */
module Fsm {
  import opened Optional
  import opened Strings
  import opened Chat
  import opened Database
  import opened UserHandlers

  datatype Step = Default | FirstName | LastName | NameSubject | PointsSubject

  /** The keys the handlers store answers under, and the values stored. */
  datatype BagKey = FirstNameKey | LastNameKey | NameSubjectKey | PointsSubjectKey
  datatype BagValue = Str(s: string) | Num(n: int)
  type Bag = map<BagKey, BagValue>

  /** Everything a message can change: the FSM storage and the three tables. */
  datatype World = World(step: map<UserId, Step>, bag: map<UserId, Bag>, db: Tables)

  /** The world after one handler ran, and the replies it sent. */
  datatype Outcome = Outcome(world: World, replies: seq<Reply>)

  /** A user with no stored state is in the default state with an empty bag. */
  function StepOf(w: World, u: UserId): Step {
    if u in w.step then w.step[u] else Default
  }

  function BagOf(w: World, u: UserId): Bag {
    if u in w.bag then w.bag[u] else map[]
  }

  /** state.set_state(s) */
  function SetState(w: World, u: UserId, s: Step): World {
    w.(step := w.step[u := s])
  }

  /** state.update_data(k=v) */
  function UpdateData(w: World, u: UserId, k: BagKey, v: BagValue): World {
    w.(bag := w.bag[u := BagOf(w, u)[k := v]])
  }

  /** state.clear(): back to the default state with an empty bag. */
  function ClearState(w: World, u: UserId): World {
    w.(step := w.step[u := Default], bag := w.bag[u := map[]])
  }

  /** The points filter: a digit string whose value lies in 0..100. */
  predicate PointsAccepted(text: string) {
    IsDigitStr(text) && 0 <= ParseNat(text) <= 100
  }

  /**
   * What holds of every user's state between messages: the bag holds
   * exactly the answers the current step has collected, each of which
   * passed its filter, and a user in the registration dialog has no
   * profile row yet.
   */
  ghost predicate UserInv(w: World, u: UserId) {
    var b := BagOf(w, u);
    match StepOf(w, u)
    case Default => b == map[]
    case FirstName => b == map[] && !HasProfile(w.db.profile, u)
    case LastName =>
      b.Keys == {FirstNameKey} && b[FirstNameKey].Str? && IsAlphaStr(b[FirstNameKey].s)
      && !HasProfile(w.db.profile, u)
    case NameSubject => b == map[]
    case PointsSubject =>
      b.Keys == {NameSubjectKey} && b[NameSubjectKey].Str? && IsAlphaStr(b[NameSubjectKey].s)
  }

  ghost predicate Inv(w: World) {
    UniqueUsers(w.db.profile) && forall u :: UserInv(w, u)
  }

  /** A change confined to one user's state and profile row keeps the invariant. */
  lemma InvFromUser(w: World, w': World, u: UserId)
    requires Inv(w) && UniqueUsers(w'.db.profile) && UserInv(w', u)
    requires forall v :: v != u ==> StepOf(w', v) == StepOf(w, v) && BagOf(w', v) == BagOf(w, v)
    requires forall v :: v != u ==> (HasProfile(w'.db.profile, v) <==> HasProfile(w.db.profile, v))
    ensures Inv(w')
  {
    forall v ensures UserInv(w', v) {
      if v != u {
        assert UserInv(w, v);
      }
    }
  }

  /** A change that leaves the FSM storage and the profile table alone keeps the invariant. */
  lemma InvSameState(w: World, w': World)
    requires Inv(w)
    requires w'.step == w.step && w'.bag == w.bag && w'.db.profile == w.db.profile
    ensures Inv(w')
  {
    forall v ensures UserInv(w', v) {
      assert StepOf(w', v) == StepOf(w, v) && BagOf(w', v) == BagOf(w, v);
      assert UserInv(w, v);
    }
  }

  // ---- the handlers of the fsm router, each as its effect on the world ----

  /** process_start_registracio: ask for the first name. */
  function StartRegistration(w: World, u: UserId): Outcome {
    Outcome(SetState(w, u, FirstName), [Say(InputFirstName, NoKeyboard)])
  }

  /** process_cancel_command_state */
  function CancelFlow(w: World, u: UserId): Outcome {
    Outcome(ClearState(w, u), [Say(Cancel, NoKeyboard)])
  }

  /** process_name_sent: keep the first name, ask for the last name. */
  function NameSent(w: World, u: UserId, text: string): Outcome {
    Outcome(SetState(UpdateData(w, u, FirstNameKey, Str(text)), u, LastName), [Say(InputLastName, NoKeyboard)])
  }

  /** The four warning_not_* handlers: one error text, nothing else changes. */
  function Warn(w: World, p: Phrase): Outcome {
    Outcome(w, [Say(p, NoKeyboard)])
  }

  /**
   * process_save_profile: keep the last name, create the profile row from
   * the bag, clear the state, confirm and show the login menu. When the
   * insert is rejected the handler stops with the bag updated and nothing sent.
   */
  function SaveProfile(w: World, u: UserId, text: string): Outcome
    requires FirstNameKey in BagOf(w, u) && BagOf(w, u)[FirstNameKey].Str?
  {
    var w1 := UpdateData(w, u, LastNameKey, Str(text));
    var data := BagOf(w1, u);
    match InsertProfile(w1.db.profile, ProfileRow(u, data[FirstNameKey].s, data[LastNameKey].s))
    case None => Outcome(w1, [])
    case Some(profile) =>
      var w2 := ClearState(w1.(db := w1.db.(profile := profile)), u);
      Outcome(w2, [Say(CancelInputFsm, NoKeyboard)] + LoginMenuReplies(profile, u))
  }

  /**
   * For a user without a profile row, process_save_profile appends exactly
   * the row (user, first name, last name), clears the state and bag, and
   * sends the completion text and the greeting.
   */
  lemma SaveProfileForNewUser(w: World, u: UserId, text: string)
    requires FirstNameKey in BagOf(w, u) && BagOf(w, u)[FirstNameKey].Str?
    requires !HasProfile(w.db.profile, u)
    ensures var r := SaveProfile(w, u, text);
            && r.world.db == w.db.(profile := w.db.profile + [ProfileRow(u, BagOf(w, u)[FirstNameKey].s, text)])
            && StepOf(r.world, u) == Default && BagOf(r.world, u) == map[]
            && r.replies == [Say(CancelInputFsm, NoKeyboard), Photo(Greeting)]
  {
    var w1 := UpdateData(w, u, LastNameKey, Str(text));
    var row := ProfileRow(u, BagOf(w, u)[FirstNameKey].s, text);
    assert BagOf(w1, u)[FirstNameKey] == BagOf(w, u)[FirstNameKey] && BagOf(w1, u)[LastNameKey] == Str(text);
    assert w1.db == w.db;
    assert InsertProfile(w1.db.profile, row) == Some(w.db.profile + [row]);
    HasProfileAppend(w.db.profile, row, u);
    assert LoginMenuReplies(w.db.profile + [row], u) == [Photo(Greeting)];
  }

  /** make_enter_name_subject: ask for the subject; no registration check. */
  function EnterScores(w: World, u: UserId): Outcome {
    Outcome(SetState(w, u, NameSubject), [Say(InputNameSubject, NoKeyboard)])
  }

  /** make_enter_points_subject: keep the subject, ask for the points. */
  function SubjectSent(w: World, u: UserId, text: string): Outcome {
    Outcome(SetState(UpdateData(w, u, NameSubjectKey, Str(text)), u, PointsSubject), [Say(InputPointsSubject, NoKeyboard)])
  }

  /**
   * process_save_subject: keep the points as an integer, append the score
   * row, clear the state, confirm and show the login menu.
   */
  function SaveSubject(w: World, u: UserId, text: string): Outcome
    requires PointsAccepted(text)
    requires NameSubjectKey in BagOf(w, u) && BagOf(w, u)[NameSubjectKey].Str?
  {
    var w1 := UpdateData(w, u, PointsSubjectKey, Num(ParseNat(text)));
    var data := BagOf(w1, u);
    var row := ScoreRow(u, data[NameSubjectKey].s, data[PointsSubjectKey].n);
    var w2 := ClearState(w1.(db := w1.db.(subjects := w1.db.subjects + [row])), u);
    Outcome(w2, [Say(CancelInputFsm, NoKeyboard)] + LoginMenuReplies(w2.db.profile, u))
  }

  // ---- each handler keeps the invariant ----

  lemma StartRegistrationKeepsInv(w: World, u: UserId)
    requires Inv(w) && StepOf(w, u) == Default && !HasProfile(w.db.profile, u)
    ensures Inv(StartRegistration(w, u).world)
  {
    assert UserInv(w, u);
    InvFromUser(w, StartRegistration(w, u).world, u);
  }

  lemma CancelKeepsInv(w: World, u: UserId)
    requires Inv(w)
    ensures Inv(CancelFlow(w, u).world)
  {
    InvFromUser(w, CancelFlow(w, u).world, u);
  }

  lemma NameSentKeepsInv(w: World, u: UserId, text: string)
    requires Inv(w) && StepOf(w, u) == FirstName && IsAlphaStr(text)
    ensures Inv(NameSent(w, u, text).world)
  {
    assert UserInv(w, u);
    var w' := NameSent(w, u, text).world;
    assert BagOf(w', u) == map[FirstNameKey := Str(text)];
    InvFromUser(w, w', u);
  }

  lemma SaveProfileKeepsInv(w: World, u: UserId, text: string)
    requires Inv(w) && StepOf(w, u) == LastName && IsAlphaStr(text)
    ensures FirstNameKey in BagOf(w, u) && BagOf(w, u)[FirstNameKey].Str?
    ensures SaveProfile(w, u, text).world.db.profile
            == w.db.profile + [ProfileRow(u, BagOf(w, u)[FirstNameKey].s, text)]
    ensures Inv(SaveProfile(w, u, text).world)
  {
    assert UserInv(w, u);
    var row := ProfileRow(u, BagOf(w, u)[FirstNameKey].s, text);
    var w' := SaveProfile(w, u, text).world;
    assert w'.db.profile == w.db.profile + [row];
    forall v | v != u ensures HasProfile(w'.db.profile, v) <==> HasProfile(w.db.profile, v) {
      HasProfileAppend(w.db.profile, row, v);
    }
    InvFromUser(w, w', u);
  }

  lemma EnterScoresKeepsInv(w: World, u: UserId)
    requires Inv(w) && StepOf(w, u) == Default
    ensures Inv(EnterScores(w, u).world)
  {
    assert UserInv(w, u);
    InvFromUser(w, EnterScores(w, u).world, u);
  }

  lemma SubjectSentKeepsInv(w: World, u: UserId, text: string)
    requires Inv(w) && StepOf(w, u) == NameSubject && IsAlphaStr(text)
    ensures Inv(SubjectSent(w, u, text).world)
  {
    assert UserInv(w, u);
    var w' := SubjectSent(w, u, text).world;
    assert BagOf(w', u) == map[NameSubjectKey := Str(text)];
    InvFromUser(w, w', u);
  }

  lemma SaveSubjectKeepsInv(w: World, u: UserId, text: string)
    requires Inv(w) && StepOf(w, u) == PointsSubject && PointsAccepted(text)
    ensures NameSubjectKey in BagOf(w, u) && BagOf(w, u)[NameSubjectKey].Str?
    ensures Inv(SaveSubject(w, u, text).world)
  {
    assert UserInv(w, u);
    InvFromUser(w, SaveSubject(w, u, text).world, u);
  }

  /**
   * The bot's state: the FSM storage (one step and one bag per user) and the
   * store it writes through. Each method below is one handler of the fsm
   * router, run after its filters have passed.
   */
  class Bot {
    var step: map<UserId, Step>
    var bag: map<UserId, Bag>
    const store: Store

    /** A fresh in-memory FSM storage over a store that db_start has opened. */
    constructor (store: Store)
      requires store.ready && UniqueUsers(store.profile)
      ensures this.store == store && step == map[] && bag == map[]
      ensures Valid()
    {
      this.store := store;
      step := map[];
      bag := map[];
    }

    function Model(): World
      reads this, store
    {
      World(step, bag, store.Contents())
    }

    ghost predicate Valid()
      reads this, store
    {
      store.ready && Inv(Model())
    }

    method ProcessStartRegistration(u: UserId) returns (replies: seq<Reply>)
      modifies this
      ensures Outcome(Model(), replies) == StartRegistration(old(Model()), u)
    {
      replies := [Say(InputFirstName, NoKeyboard)];
      step := step[u := FirstName];
    }

    method ProcessCancelCommandState(u: UserId) returns (replies: seq<Reply>)
      modifies this
      ensures Outcome(Model(), replies) == CancelFlow(old(Model()), u)
    {
      replies := [Say(Cancel, NoKeyboard)];
      step := step[u := Default];
      bag := bag[u := map[]];
    }

    method ProcessNameSent(u: UserId, text: string) returns (replies: seq<Reply>)
      modifies this
      ensures Outcome(Model(), replies) == NameSent(old(Model()), u, text)
    {
      bag := bag[u := BagOf(Model(), u)[FirstNameKey := Str(text)]];
      replies := [Say(InputLastName, NoKeyboard)];
      step := step[u := LastName];
    }

    /** warning_not_first_name, warning_not_last_name, warning_not_name_subject, warning_not_points_subject */
    method WarningNot(p: Phrase) returns (replies: seq<Reply>)
      ensures Outcome(Model(), replies) == Warn(Model(), p)
    {
      replies := [Say(p, NoKeyboard)];
    }

    method ProcessSaveProfile(u: UserId, text: string) returns (replies: seq<Reply>)
      requires store.ready && IsAlphaStr(text)
      requires FirstNameKey in BagOf(Model(), u) && BagOf(Model(), u)[FirstNameKey].Str?
      requires IsAlphaStr(BagOf(Model(), u)[FirstNameKey].s)
      modifies this, store`profile
      ensures Outcome(Model(), replies) == SaveProfile(old(Model()), u, text)
    {
      bag := bag[u := BagOf(Model(), u)[LastNameKey := Str(text)]];
      var data := bag[u];
      AlphaIsSqlSafe(data[FirstNameKey].s);
      AlphaIsSqlSafe(text);
      var ok := store.CreateProfile(u, data[FirstNameKey].s, data[LastNameKey].s);
      if !ok {
        // the primary key rejected the row: the exception ends the handler here
        return [];
      }
      step := step[u := Default];
      bag := bag[u := map[]];
      var menu := LoginMenu(store, u);
      replies := [Say(CancelInputFsm, NoKeyboard)] + menu;
    }

    method MakeEnterNameSubject(u: UserId) returns (replies: seq<Reply>)
      modifies this
      ensures Outcome(Model(), replies) == EnterScores(old(Model()), u)
    {
      replies := [Say(InputNameSubject, NoKeyboard)];
      step := step[u := NameSubject];
    }

    method MakeEnterPointsSubject(u: UserId, text: string) returns (replies: seq<Reply>)
      modifies this
      ensures Outcome(Model(), replies) == SubjectSent(old(Model()), u, text)
    {
      bag := bag[u := BagOf(Model(), u)[NameSubjectKey := Str(text)]];
      replies := [Say(InputPointsSubject, NoKeyboard)];
      step := step[u := PointsSubject];
    }

    method ProcessSaveSubject(u: UserId, text: string) returns (replies: seq<Reply>)
      requires store.ready && PointsAccepted(text)
      requires NameSubjectKey in BagOf(Model(), u) && BagOf(Model(), u)[NameSubjectKey].Str?
      requires IsAlphaStr(BagOf(Model(), u)[NameSubjectKey].s)
      modifies this, store`subjects
      ensures Outcome(Model(), replies) == SaveSubject(old(Model()), u, text)
    {
      bag := bag[u := BagOf(Model(), u)[PointsSubjectKey := Num(ParseNat(text))]];
      var data := bag[u];
      AlphaIsSqlSafe(data[NameSubjectKey].s);
      store.CreateEducationalSubjects(u, data[NameSubjectKey].s, data[PointsSubjectKey].n);
      step := step[u := Default];
      bag := bag[u := map[]];
      var menu := LoginMenu(store, u);
      replies := [Say(CancelInputFsm, NoKeyboard)] + menu;
    }
  }
}

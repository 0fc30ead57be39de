/**
 * The registration gate: a filter that lets a registration start only for
 * a user with no profile row, and answers a registered user with the
 * "already started" text instead.
 */
module Registration {
  import opened Chat
  import opened Database

  /** The filter's verdict and the replies it sent while deciding. */
  datatype GateResult = GateResult(pass: bool, replies: seq<Reply>)

  /** RegistrationFilter.__call__, as a decision over the profile table. */
  function Gate(profile: seq<ProfileRow>, u: UserId): (r: GateResult)
    ensures r.pass <==> !HasProfile(profile, u)
    ensures |r.replies| == (if r.pass then 0 else 1)
    ensures forall i :: 0 <= i < |r.replies| ==> r.replies[i] == Say(StartMessage, NoKeyboard)
  {
    var userSql := Select(profile, ProfileOwner, u);
    SelectProfileEmpty(profile, u);
    if userSql != [] then GateResult(false, [Say(StartMessage, NoKeyboard)])
    else GateResult(true, [])
  }

  /** The filter reads the profile table through load_user and writes nothing. */
  method RegistrationFilter(store: Store, u: UserId) returns (pass: bool, replies: seq<Reply>)
    requires store.ready
    ensures GateResult(pass, replies) == Gate(store.profile, u)
  {
    var userSql := store.LoadUser(u);
    var registrationStatus := userSql != [];
    if registrationStatus {
      replies := [Say(StartMessage, NoKeyboard)];
      pass := false;
    } else {
      replies := [];
      pass := true;
    }
  }
}

/** The permission checks `is_admin` and `is_owner`. A denial tells the
    user why; sending that reply is the only thing that can fail, and its
    outcome is the input `reply`. */
module Checks {
  import opened Results
  import BotState

  const AdminDenied := "You need to be an Admin to execute this command."
  const OwnerDenied := "You need to be the bot owner to execute this command."

  /** What a check returns, and the reply it sends, if any. */
  datatype Verdict = Verdict(result: Result<bool, string>, message: Option<string>)

  /** `is_admin`: the author passes when the state lists them as an admin
      or they are `settings.owner`. */
  function IsAdmin(st: BotState.State, owner: BotState.u64, author: BotState.u64, reply: Result<(), string>): (v: Verdict)
    ensures v.result == Ok(true) <==> author in st.admins || author == owner
    ensures v.result == Ok(true) ==> v.message == None
    ensures v.result != Ok(true) ==> v.message == Some(AdminDenied)
    ensures v.result.Err? <==> v.result != Ok(true) && reply.Err?
    ensures v.result.Err? ==> v.result.error == reply.error
  {
    if BotState.UserId(author) in BotState.Admins(st) || owner == author then
      Verdict(Ok(true), None)
    else
      match reply
      case Ok(_) => Verdict(Ok(false), Some(AdminDenied))
      case Err(e) => Verdict(Err(e), Some(AdminDenied))
  }

  /** `is_owner`: the author passes exactly when they are `settings.owner`. */
  function IsOwner(owner: BotState.u64, author: BotState.u64, reply: Result<(), string>): (v: Verdict)
    ensures v.result == Ok(true) <==> author == owner
    ensures v.result == Ok(true) ==> v.message == None
    ensures v.result != Ok(true) ==> v.message == Some(OwnerDenied)
    ensures v.result.Err? <==> v.result != Ok(true) && reply.Err?
    ensures v.result.Err? ==> v.result.error == reply.error
  {
    if owner == author then
      Verdict(Ok(true), None)
    else
      match reply
      case Ok(_) => Verdict(Ok(false), Some(OwnerDenied))
      case Err(e) => Verdict(Err(e), Some(OwnerDenied))
  }

  /** Whoever passes `is_owner` passes `is_admin`, whatever the state. */
  lemma OwnerIsAdmin(st: BotState.State, owner: BotState.u64, author: BotState.u64, r1: Result<(), string>, r2: Result<(), string>)
    requires IsOwner(owner, author, r1).result == Ok(true)
    ensures IsAdmin(st, owner, author, r2).result == Ok(true)
  {
  }

  /** With the default state only the owner is an admin. */
  lemma DefaultStateAdmitsOnlyOwner(owner: BotState.u64, author: BotState.u64, reply: Result<(), string>)
    ensures IsAdmin(BotState.Default(), owner, author, reply).result == Ok(true) <==> author == owner
  {
  }
}

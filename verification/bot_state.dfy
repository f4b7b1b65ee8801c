/** The bot's persisted state record `State`: the revision head to build and
    the admin ids. Saving to disk is not modelled; whether a save succeeded
    is an input, because the in-memory change happens before the save. */
module BotState {
  import opened Results
  import Process

  newtype u64 = x: int | 0 <= x < 0x1_0000_0000_0000_0000

  /** Serenity's `UserId` wrapper around a raw id. */
  datatype UserId = UserId(id: u64)

  datatype State = State(gitHead: string, admins: set<u64>)

  /** `State::default`. */
  function Default(): (st: State)
    ensures st.gitHead == "master" && st.admins == {}
  {
    State("master", {})
  }

  /** `head`. */
  function Head(st: State): string {
    st.gitHead
  }

  /** Wrapping ids into `UserId` neither merges nor invents elements. */
  lemma {:induction false} ImageCardinality(ids: set<u64>)
    ensures |set x | x in ids :: UserId(x)| == |ids|
    decreases |ids|
  {
    if ids != {} {
      var x :| x in ids;
      var rest := ids - {x};
      ImageCardinality(rest);
      var img := set y | y in ids :: UserId(y);
      var imgRest := set y | y in rest :: UserId(y);
      assert img == imgRest + {UserId(x)};
      assert UserId(x) !in imgRest;
    }
  }

  /** `admins`: every stored id wrapped as a `UserId`, one for one. */
  function Admins(st: State): (r: set<UserId>)
    ensures forall u: UserId :: u in r <==> u.id in st.admins
    ensures |r| == |st.admins|
  {
    ImageCardinality(st.admins);
    set x | x in st.admins :: UserId(x)
  }

  /** `set_head`: `probe` is the exit status of the `git ls-remote --heads`
      existence check (or the error running it). The head changes exactly
      when the probe reports success; the answer is the probe's verdict,
      unless the probe or the save after the change failed. */
  function SetHead(st: State, head: string, probe: Result<Process.ExitStatus, string>,
                   save: Result<(), string>): (r: (State, Result<bool, string>))
    ensures r.0.admins == st.admins
    ensures r.0.gitHead == if probe.Ok? && Process.Success(probe.value) then head else st.gitHead
    ensures probe.Err? ==> r.1 == Err(probe.error)
    ensures probe.Ok? && !Process.Success(probe.value) ==> r.1 == Ok(false)
    ensures probe.Ok? && Process.Success(probe.value) ==> r.1 == (if save.Ok? then Ok(true) else Err(save.error))
  {
    match probe
    case Err(e) => (st, Err(e))
    case Ok(status) =>
      var found := Process.Success(status);
      if found then
        var st' := st.(gitHead := head);
        match save
        case Err(e) => (st', Err(e))
        case Ok(_) => (st', Ok(true))
      else (st, Ok(false))
  }

  /** What `head` returns after `set_head`. */
  lemma HeadAfterSetHead(st: State, head: string, probe: Result<Process.ExitStatus, string>, save: Result<(), string>)
    ensures Head(SetHead(st, head, probe, save).0) == head || Head(SetHead(st, head, probe, save).0) == Head(st)
    ensures SetHead(st, head, probe, save).1 == Ok(true) ==> Head(SetHead(st, head, probe, save).0) == head
    ensures SetHead(st, head, probe, save).1 == Ok(false) ==> Head(SetHead(st, head, probe, save).0) == Head(st)
  {
  }

  /** `add_admin`: insert the id, then save; a failed save is reported but
      the insertion stays. */
  function AddAdmin(st: State, id: u64, save: Result<(), string>): (r: (State, Result<(), string>))
    ensures id in r.0.admins
    ensures forall x | x != id :: x in r.0.admins <==> x in st.admins
    ensures r.0.gitHead == st.gitHead
    ensures r.1 == save
  {
    (st.(admins := st.admins + {id}), save)
  }

  /** `remove_admin`: remove the id, then save. */
  function RemoveAdmin(st: State, id: u64, save: Result<(), string>): (r: (State, Result<(), string>))
    ensures id !in r.0.admins
    ensures forall x | x != id :: x in r.0.admins <==> x in st.admins
    ensures id !in st.admins ==> r.0 == st
    ensures r.0.gitHead == st.gitHead
    ensures r.1 == save
  {
    (st.(admins := st.admins - {id}), save)
  }

  /** Adding twice is adding once; removing undoes adding a new id. */
  lemma AdminUpdates(st: State, id: u64, s1: Result<(), string>, s2: Result<(), string>)
    ensures AddAdmin(AddAdmin(st, id, s1).0, id, s2).0 == AddAdmin(st, id, s1).0
    ensures id !in st.admins ==> RemoveAdmin(AddAdmin(st, id, s1).0, id, s2).0 == st
  {
  }
}

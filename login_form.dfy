/**
 * The nickname form shown after a player record exists: submitting checks
 * the name is not blank, then updates that record's name and reports the
 * outcome. The asynchronous submit is split at its one `await`: `Submit`
 * runs up to the update request, `Settle` runs once the request resolves.
 */
module LoginForm {
  import opened Options
  import opened Text
  import opened Store

  const EmptyNameError: string := "Name cannot be empty."
  const UpdateFailedError: string := "Failed to set name. Please try again."

  /** One rendered instance of the form. */
  class Form {
    const playerId: string
    const store: PlayerStore
    /** The text in the input. */
    var name: string
    /** True while the update is pending; the submit button is disabled meanwhile. */
    var loading: bool
    /** The message shown under the input, or none. */
    var error: Option<string>
    /** The name the pending update carries, while one is pending. */
    var pending: Option<string>
    /** How many times `onNameSet` has been called. */
    var nameSetCalls: nat

    /** An update is pending exactly while loading, and no error shows meanwhile. */
    ghost predicate Valid()
      reads this
    {
      (loading <==> pending.Some?) && (loading ==> error == None)
    }

    /** The first render: empty name, not loading, no error. */
    constructor (playerId: string, store: PlayerStore)
      ensures Valid()
      ensures this.playerId == playerId && this.store == store
      ensures name == "" && !loading && error == None && pending == None && nameSetCalls == 0
    {
      this.playerId := playerId;
      this.store := store;
      name := "";
      loading := false;
      error := None;
      pending := None;
      nameSetCalls := 0;
    }

    /** Typing in the input. */
    method ChangeName(s: string)
      requires Valid()
      modifies this`name
      ensures Valid() && name == s
    {
      name := s;
    }

    /**
     * `handleSubmit` up to the update. A blank name shows "Name cannot be
     * empty." and sends nothing; otherwise loading is set and the error
     * cleared before the update of `name`, the raw input and not its
     * trimmed form, is sent. Submitting needs the button enabled, that is
     * no update pending.
     */
    method Submit() returns (sent: bool)
      requires Valid() && !loading
      modifies this`loading, this`error, this`pending, store`log
      ensures Valid()
      ensures sent <==> !IsBlank(name)
      ensures !sent ==>
        && !loading && error == Some(EmptyNameError) && pending == None
        && store.log == old(store.log)
      ensures sent ==>
        && loading && error == None && pending == Some(name)
        && store.log == old(store.log) + [NameUpdate(playerId, name)]
    {
      TrimEmptyIffBlank(name);
      if Trim(name) == "" {
        error := Some(EmptyNameError);
        return false;
      }
      loading := true;
      error := None;
      pending := Some(name);
      store.SendNameUpdate(playerId, name);
      return true;
    }

    /**
     * `handleSubmit` after the update resolves: loading ends whatever the
     * outcome; a failed update shows "Failed to set name. Please try again."
     * and does not call `onNameSet`; a successful one calls it once and
     * leaves the error cleared. The update sets only the name of the record
     * whose id is `playerId`.
     */
    method Settle(updateFails: bool)
      requires Valid() && loading
      modifies this`loading, this`error, this`pending, this`nameSetCalls, store`rows
      ensures Valid() && !loading && pending == None
      ensures updateFails ==>
        error == Some(UpdateFailedError) && nameSetCalls == old(nameSetCalls) && store.rows == old(store.rows)
      ensures !updateFails ==>
        && error == None && nameSetCalls == old(nameSetCalls) + 1
        && store.rows == WithName(old(store.rows), playerId, old(pending).value)
    {
      store.ResolveNameUpdate(playerId, pending.value, !updateFails);
      loading := false;
      pending := None;
      if updateFails {
        error := Some(UpdateFailedError);
      } else {
        nameSetCalls := nameSetCalls + 1;
      }
    }
  }
}

/** The ambient user context (`UserContext`) whose user the audit columns record. */
module User {
  import opened Common

  /** The signed-in user; the model needs only its id. */
  datatype UserDb = UserDb(id: Key)

  /** The context slot, unset (`None`) until a user is set. */
  class UserContext {
    var user: Option<UserDb>

    constructor ()
      ensures user == None
    {
      user := None;
    }

    /** `set_user(user)`: replaces the context user; `set_user(None)` clears it. */
    method SetUser(u: Option<UserDb>)
      modifies this
      ensures user == u && ContextUserSession() == u
    {
      user := u;
    }

    /** `context_user_session`: the user last set, or `None`. */
    function ContextUserSession(): Option<UserDb>
      reads this
    {
      user
    }

    /** The id the audit columns record: that of the context user, if any. */
    function Actor(): Option<Key>
      reads this
    {
      match user
      case Some(u) => Some(u.id)
      case None => None
    }
  }
}

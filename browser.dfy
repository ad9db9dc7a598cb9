/**
 * The browser state the session code shares: the two localStorage keys
 * (`token` and `user`) and the page the window was last sent to.
 */
module Browser {
  import opened Wrappers
  import opened Records

  /** A snapshot of the shared browser state. */
  datatype Store = Store(token: Option<string>, userItem: Option<Record>, href: Option<string>)

  class Window {
    /** localStorage `token`; None is what `getItem` reports as `null`. */
    var token: Option<string>
    /** localStorage `user`: the JSON text of a user record, kept here as the record. */
    var userItem: Option<Record>
    /** The last page assigned to `window.location.href`, if any. */
    var href: Option<string>

    constructor(token: Option<string>, userItem: Option<Record>)
      ensures this.token == token && this.userItem == userItem && href == None
    {
      this.token := token;
      this.userItem := userItem;
      href := None;
    }

    function Snapshot(): Store
      reads this
    {
      Store(token, userItem, href)
    }
  }

  /**
   * What `if (localStorage.getItem('token'))` lets through: a stored token
   * that is not the empty (falsy) string.
   */
  function UsableToken(stored: Option<string>): (t: Option<string>)
    ensures t.Some? <==> stored.Some? && stored.value != ""
    ensures t.Some? ==> t == stored
  {
    if stored.Some? && stored.value != "" then stored else None
  }

  /** Both keys are stored or neither is. */
  predicate Paired(s: Store) {
    s.token.Some? <==> s.userItem.Some?
  }
}

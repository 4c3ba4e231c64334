/** The logged-in user: one e-mail and one role, both `None` while nobody
    is logged in. The module-level globals become the fields of one
    object. */
module Session {
  import opened Wrappers
  import opened Text

  class UserSession {
    var email: Option<string>
    var role: Option<string>

    /** A stored e-mail never has surrounding whitespace. */
    predicate Valid()
      reads this
    {
      email.Some? ==> Trim(email.value) == email.value
    }

    /** The state at import time: nobody logged in. */
    constructor()
      ensures Valid() && email == None && role == None
    {
      email := None;
      role := None;
    }

    /** `set_current_user`: the e-mail (None read as "") stripped, the role
        as given. */
    method SetCurrentUser(e: Option<string>, r: string)
      modifies this
      ensures Valid()
      ensures email == Some(Trim(e.GetOr(""))) && role == Some(r)
    {
      var trimmed := Trim(e.GetOr(""));
      TrimIdempotent(e.GetOr(""));
      assert Trim(trimmed) == trimmed;
      email := Some(trimmed);
      role := Some(r);
    }

    /** `clear_current_user`: back to nobody logged in. */
    method ClearCurrentUser()
      modifies this
      ensures Valid() && email == None && role == None
    {
      email := None;
      role := None;
    }

    /** `get_current_user`: the pair last stored. */
    method GetCurrentUser() returns (e: Option<string>, r: Option<string>)
      requires Valid()
      ensures e == email && r == role
      ensures e.Some? ==> Trim(e.value) == e.value
    {
      e, r := email, role;
    }
  }

  /** Logging in and reading back gives the stripped e-mail and the role;
      logging in again with what was read back changes nothing. */
  method LoginRoundTrip(s: UserSession, e: Option<string>, r: string) returns (got: Option<string>, gotRole: Option<string>)
    modifies s
    ensures got == Some(Trim(e.GetOr(""))) && gotRole == Some(r)
    ensures s.email == got && s.role == gotRole
  {
    s.SetCurrentUser(e, r);
    got, gotRole := s.GetCurrentUser();
    s.SetCurrentUser(got, r);
  }
}

/** The account fields of `User` that the two-factor flow reads and writes. */
module Users {
  import opened Wrappers

  /** The fields of a user a two-factor operation may touch. */
  datatype UserState = UserState(role: string, phone: string, is2faEnabled: bool, twoFactorMethod: Option<string>)

  /** The state `enable_2fa(method)` leaves. */
  function Enabled(s: UserState, m: string): (r: UserState)
    ensures r.is2faEnabled && r.twoFactorMethod == Some(m)
    ensures r.role == s.role && r.phone == s.phone
  {
    s.(is2faEnabled := true, twoFactorMethod := Some(m))
  }

  /** The state `disable_2fa()` leaves. */
  function Disabled(s: UserState): (r: UserState)
    ensures !r.is2faEnabled && r.twoFactorMethod.None?
    ensures r.role == s.role && r.phone == s.phone
  {
    s.(is2faEnabled := false, twoFactorMethod := None)
  }

  /** Enabling and then disabling brings an account back to the default
      disabled state it was created in. */
  lemma DisableUndoesEnable(role: string, phone: string, m: string)
    ensures Disabled(Enabled(UserState(role, phone, false, None), m)) == UserState(role, phone, false, None)
  {
  }

  class User {
    var role: string
    var phone: string
    var is2faEnabled: bool
    var twoFactorMethod: Option<string>

    function State(): UserState
      reads this
    {
      UserState(role, phone, is2faEnabled, twoFactorMethod)
    }

    /** A new account: two-factor authentication off and no method. */
    constructor (role: string, phone: string)
      ensures State() == UserState(role, phone, false, None)
    {
      this.role := role;
      this.phone := phone;
      is2faEnabled := false;
      twoFactorMethod := None;
    }

    /** `enable_2fa`. */
    method EnableTwoFactor(m: string)
      modifies this
      ensures State() == Enabled(old(State()), m)
    {
      is2faEnabled := true;
      twoFactorMethod := Some(m);
    }

    /** `disable_2fa`. */
    method DisableTwoFactor()
      modifies this
      ensures State() == Disabled(old(State()))
    {
      is2faEnabled := false;
      twoFactorMethod := None;
    }
  }
}

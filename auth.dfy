/** The mock branch of the authentication hook: a single `user` record
    (persisted under 'currentUser', here kept in memory) that login, register,
    logout and premium activation overwrite. No credential is ever checked. */
module Auth {
  import opened Types

  datatype User = User(id: string, name: string, email: string, hasPremium: bool, createdAt: int)

  /** `email.split('@')[0]`: everything before the first '@', or the whole
      address when it has none. */
  function NameFromEmail(email: string): (name: string)
    ensures name <= email
    ensures '@' !in name
    ensures |name| < |email| ==> email[|name|] == '@'
  {
    if email == [] || email[0] == '@' then [] else [email[0]] + NameFromEmail(email[1..])
  }

  /** The user record a mock login creates; the password plays no part. */
  function LoginUser(email: string, stamp: Stamp): (u: User)
    ensures u.email == email && !u.hasPremium && u.name == NameFromEmail(email)
  {
    User(stamp.id, NameFromEmail(email), email, false, stamp.now)
  }

  /** The user record a mock registration creates; the password plays no part. */
  function RegisteredUser(name: string, email: string, stamp: Stamp): (u: User)
    ensures u.name == name && u.email == email && !u.hasPremium
  {
    User(stamp.id, name, email, false, stamp.now)
  }

  /** `hasPremiumAccess`: false without a user, else that user's flag. */
  function PremiumOf(user: Option<User>): (b: bool)
    ensures b <==> user.Some? && user.value.hasPremium
  {
    match user
    case None => false
    case Some(u) => u.hasPremium
  }

  class AuthState {
    var user: Option<User>

    /** The hook starts from whatever user record storage holds. */
    constructor (stored: Option<User>)
      ensures user == stored
    {
      user := stored;
    }

    /** `hasPremiumAccess`, read through `PremiumOf`. */
    function HasPremiumAccess(): bool
      reads this
    {
      PremiumOf(user)
    }

    /** Always succeeds, whatever the password. */
    method Login(email: string, password: string, stamp: Stamp) returns (ok: bool)
      modifies this
      ensures ok
      ensures user == Some(LoginUser(email, stamp))
    {
      user := Some(LoginUser(email, stamp));
      ok := true;
    }

    /** Always succeeds, whatever the password. */
    method Register(name: string, email: string, password: string, stamp: Stamp) returns (ok: bool)
      modifies this
      ensures ok
      ensures user == Some(RegisteredUser(name, email, stamp))
    {
      user := Some(RegisteredUser(name, email, stamp));
      ok := true;
    }

    method Logout()
      modifies this
      ensures user == None
      ensures !HasPremiumAccess()
    {
      user := None;
    }

    /** Without a user nothing happens; otherwise only the premium flag
        changes, to true. */
    method ActivatePremium()
      modifies this
      ensures old(user).None? ==> user == None
      ensures old(user).Some? ==> user == Some(old(user).value.(hasPremium := true))
      ensures HasPremiumAccess() <==> old(user).Some?
    {
      if user.Some? {
        user := Some(user.value.(hasPremium := true));
      }
    }
  }
}

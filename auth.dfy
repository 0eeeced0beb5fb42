/**
 * The sign-in form (components/Auth.tsx): a login recovers the stored profile
 * or builds a minimal record from the email; a sign-up builds a fresh record.
 * Either way the record is saved as the session user and passed to `onLogin`.
 * The password is collected but never consulted.
 */
module Auth {
  import opened Wrappers
  import opened Types
  import opened Text
  import opened Storage

  /** `email.split('@')[0]` */
  function DefaultName(email: string): (name: string)
    ensures name <= email && '@' !in name
    ensures '@' in email ==> email[|name|] == '@'
    ensures '@' !in email ==> name == email
  {
    BeforeFirst(email, '@')
  }

  /** Login: the stored profile unchanged, or `{ name: <email before '@'>, email }`. */
  function LoginUser(stored: Option<User>, email: string): (u: User)
    ensures stored.Some? ==> u == stored.value
    ensures stored.None? ==> u == User(DefaultName(email), email, None, None, None)
  {
    match stored
    case Some(p) => p
    case None => User(DefaultName(email), email, None, None, None)
  }

  /** Sign-up: a record with only a name and an email. */
  function SignUpUser(name: string, email: string): (u: User)
    ensures u.name == name && u.email == email
    ensures u.bio.None? && u.avatar.None? && u.interests.None?
  {
    User(name, email, None, None, None)
  }

  /** The record `handleSubmit` produces, a function of the mode, the fields and the store, not of the password. */
  function SubmittedUser(isLogin: bool, email: string, name: string, m: map<string, Value>): (u: User)
    requires WellTyped(m)
    ensures u.email == email
  {
    if isLogin then LoginUser(StoredProfile(m, email), email) else SignUpUser(name, email)
  }

  /** Logging in after a profile was saved recovers it exactly; without one the name defaults from the email. */
  lemma LoginRecoversSavedProfile(m: map<string, Value>, u: User, email: string, name: string)
    requires WellTyped(m)
    ensures SubmittedUser(true, u.email, name, WithUser(m, u)) == u
    ensures StoredProfile(m, email).None? ==> SubmittedUser(true, email, name, m).name == DefaultName(email)
  {
    SaveUserThenRead(m, u);
  }

  /** Signing up replaces a stored profile: its bio and interests are gone afterwards. */
  lemma SignUpOverwritesProfile(m: map<string, Value>, email: string, name: string)
    requires WellTyped(m)
    ensures var u := SubmittedUser(false, email, name, m);
      && StoredProfile(WithUser(m, u), email) == Some(User(name, email, None, None, None))
  {
    SaveUserThenRead(m, SubmittedUser(false, email, name, m));
  }

  /** The sign-in form over the shared store. */
  class AuthForm {
    const store: Store
    var isLogin: bool
    var email: string
    var password: string
    var name: string

    ghost predicate Valid()
      reads this, store
    {
      store.Valid()
    }

    constructor (store: Store)
      requires store.Valid()
      ensures Valid() && this.store == store
      ensures isLogin && email == "" && password == "" && name == ""
    {
      this.store := store;
      isLogin := true;
      email := "";
      password := "";
      name := "";
    }

    /** `handleSubmit`: returns the record handed to `onLogin`, which is also the session user and the stored profile. */
    method Submit() returns (u: User)
      requires Valid()
      modifies store
      ensures Valid()
      ensures u == SubmittedUser(isLogin, email, name, old(store.entries))
      ensures store.entries == WithUser(old(store.entries), u)
      ensures SessionUser(store.entries) == Some(u) && StoredProfile(store.entries, email) == Some(u)
    {
      if isLogin {
        var stored := store.GetStoredProfile(email);
        u := LoginUser(stored, email);
      } else {
        u := SignUpUser(name, email);
      }
      store.SaveUser(u);
      SaveUserThenRead(old(store.entries), u);
    }
  }
}

/** The session store of src/context/AuthContext.tsx: the provider's `user` and
    `isLoading` state, the one persistent `helix_user` storage slot, the mount
    effect that hydrates from the slot, `login`, `logout` and the `useAuth`
    guard.

    The pure functions on `Session` state each transition once; the class
    `AuthProvider` performs the same transitions on its fields in place and its
    methods are proved against those functions. */
module AuthContext {
  import opened Wrappers
  import opened Types

  /** The e-mail address that the mock login maps to the HR role. */
  const HrEmail: string := "hr@helix.com"

  /** Message of the error `useAuth` throws outside an `AuthProvider`. */
  const OutsideProviderError: string := "useAuth must be used within an AuthProvider"

  /** The user `login` builds: every field but `email` and `createdAt` is
      chosen by whether the address is the HR sentinel. */
  function MockUser(email: string, createdAt: string): (u: User)
    ensures u.email == email && u.createdAt == createdAt
    ensures u.role == Hr <==> email == HrEmail
    ensures email == HrEmail ==>
      u.id == "hr-1" && u.name == "HR Manager" && u.department == Some("Human Resources")
    ensures email != HrEmail ==>
      u.role == Employee && u.id == "emp-1" && u.name == "John Doe" && u.department == Some("Engineering")
  {
    var isHr := email == HrEmail;
    User(
      if isHr then "hr-1" else "emp-1",
      email,
      if isHr then Hr else Employee,
      if isHr then "HR Manager" else "John Doe",
      Some(if isHr then "Human Resources" else "Engineering"),
      createdAt)
  }

  /** What the provider exposes plus the storage slot it writes. */
  datatype Session = Session(user: Option<User>, isLoading: bool, slot: Option<User>)

  /** A freshly mounted provider over whatever the slot already holds. */
  function Mount(slot: Option<User>): Session
  {
    Session(None, true, slot)
  }

  /** The mount effect: take the user from the slot when it holds one, then
      stop loading. An empty slot leaves `user` as it was. */
  function Hydrate(s: Session): Session
  {
    if s.slot.Some? then s.(user := s.slot, isLoading := false)
    else s.(isLoading := false)
  }

  /** `login`: the password is accepted and never looked at. */
  function SignIn(s: Session, email: string, password: string, now: string): Session
  {
    var u := MockUser(email, now);
    Session(Some(u), false, Some(u))
  }

  /** `logout`: clears the slot and the user, leaves `isLoading` alone. */
  function SignOut(s: Session): Session
  {
    s.(user := None, slot := None)
  }

  lemma HydrateEndsLoading(s: Session)
    ensures !Hydrate(s).isLoading && Hydrate(s).slot == s.slot
    ensures s.slot.Some? ==> Hydrate(s).user == s.slot
    ensures s.slot.None? ==> Hydrate(s).user == s.user
    ensures Hydrate(Mount(s.slot)).user == s.slot
  {
  }

  lemma SignInStoresUser(s: Session, email: string, password: string, now: string)
    ensures SignIn(s, email, password, now).user == Some(MockUser(email, now))
    ensures SignIn(s, email, password, now).slot == SignIn(s, email, password, now).user
    ensures !SignIn(s, email, password, now).isLoading
  {
  }

  /** The outcome of `login` depends on neither the password nor the state it
      starts from. */
  lemma SignInIgnoresPasswordAndPriorState(s: Session, t: Session, email: string, p: string, q: string, now: string)
    ensures SignIn(s, email, p, now) == SignIn(t, email, q, now)
  {
  }

  /** Reloading after a login restores exactly the user that was logged in. */
  lemma ReloadAfterSignIn(s: Session, email: string, password: string, now: string)
    ensures Hydrate(Mount(SignIn(s, email, password, now).slot)) == SignIn(s, email, password, now)
  {
  }

  lemma SignOutIdempotent(s: Session)
    ensures SignOut(SignOut(s)) == SignOut(s)
    ensures SignOut(s).user.None? && SignOut(s).slot.None?
    ensures SignOut(s).isLoading == s.isLoading
  {
  }

  /** Logging out with no user and nothing stored changes nothing. */
  lemma SignOutWhenAnonymous(s: Session)
    requires s.user.None? && s.slot.None?
    ensures SignOut(s) == s
  {
  }

  /** Reloading after a logout comes back with no user. */
  lemma ReloadAfterSignOut(s: Session)
    ensures Hydrate(Mount(SignOut(s).slot)) == Session(None, false, None)
  {
  }

  /** The browser's local storage, reduced to the one `helix_user` key. */
  class LocalStorage {
    var helixUser: Option<User>

    constructor (stored: Option<User>)
      ensures helixUser == stored
    {
      helixUser := stored;
    }
  }

  /** `AuthProvider`: its two state hooks, and the storage it reads and writes. */
  class AuthProvider {
    var user: Option<User>
    var isLoading: bool
    const storage: LocalStorage

    /** The initial state before the mount effect has run. */
    constructor (storage: LocalStorage)
      ensures this.storage == storage
      ensures user.None? && isLoading
      ensures State() == Mount(storage.helixUser)
    {
      this.storage := storage;
      user := None;
      isLoading := true;
    }

    function State(): Session
      reads this, storage
    {
      Session(user, isLoading, storage.helixUser)
    }

    /** The mount effect: one read of the slot. */
    method Initialize()
      modifies this
      ensures State() == Hydrate(old(State()))
      ensures !isLoading
      ensures user == if storage.helixUser.Some? then storage.helixUser else old(user)
    {
      var stored := storage.helixUser;
      if stored.Some? {
        user := stored;
      }
      isLoading := false;
    }

    /** `login`: raise the loading flag, build the mock user, write it to the
        slot and to memory, lower the flag. It has no failure path. */
    method Login(email: string, password: string, now: string)
      modifies this, storage
      ensures State() == SignIn(old(State()), email, password, now)
      ensures user == Some(MockUser(email, now)) && storage.helixUser == user && !isLoading
    {
      isLoading := true;
      var mockUser := MockUser(email, now);
      storage.helixUser := Some(mockUser);
      user := Some(mockUser);
      isLoading := false;
    }

    /** `logout`: remove the slot, clear the user. */
    method Logout()
      modifies this, storage
      ensures State() == SignOut(old(State()))
      ensures user.None? && storage.helixUser.None? && isLoading == old(isLoading)
    {
      storage.helixUser := None;
      user := None;
    }
  }

  /** `useAuth`: the provider's context, or the error it throws when there is
      none. */
  function UseAuth(context: Option<AuthProvider>): (r: Result<AuthProvider, string>)
    ensures r.Success? <==> context.Some?
    ensures r.Success? ==> r.value == context.value
    ensures r.Failure? ==> r.error == OutsideProviderError
  {
    match context
    case Some(provider) => Success(provider)
    case None => Failure(OutsideProviderError)
  }
}

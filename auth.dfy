/** The mock session: credential checks, the user record a successful login
    or signup builds, the right-biased profile merge, and the provider state
    (current user, loading flag and the copy kept in browser storage). */
module Auth {
  import opened Wrappers
  import opened Strings

  datatype HealthStatus = Normal | AtRisk | Infected | Recovered

  /** `'none' | 'partial' | 'fully-vaccinated' | 'boosted'`. */
  datatype VaccinationStatus = NotVaccinated | Partial | FullyVaccinated | Boosted

  datatype User = User(
    id: string,
    name: string,
    email: string,
    avatar: Option<string>,
    phone: Option<string>,
    address: Option<string>,
    dob: Option<string>,
    healthStatus: Option<HealthStatus>,
    vaccinationStatus: Option<VaccinationStatus>)

  /** A `Partial<User>`: every field may be absent. */
  datatype Patch = Patch(
    id: Option<string>,
    name: Option<string>,
    email: Option<string>,
    avatar: Option<string>,
    phone: Option<string>,
    address: Option<string>,
    dob: Option<string>,
    healthStatus: Option<HealthStatus>,
    vaccinationStatus: Option<VaccinationStatus>)

  const NoChanges := Patch(None, None, None, None, None, None, None, None, None)

  // ---------------------------------------------------------------------
  // The profile merge `{ ...user, ...userData }`

  /** A required field after the spread: the update's value when present. */
  function Pick<T>(update: Option<T>, current: T): T
  {
    match update
    case Some(v) => v
    case None => current
  }

  /** An optional field after the spread. */
  function PickOptional<T>(update: Option<T>, current: Option<T>): Option<T>
  {
    if update.Some? then update else current
  }

  /** `result` is what the spread leaves in a field: the update's value when
      the update has one, otherwise the current value. */
  predicate Overrides<T(==)>(update: Option<T>, current: T, result: T)
  {
    (update.Some? ==> result == update.value) && (update.None? ==> result == current)
  }

  predicate OverridesOptional<T(==)>(update: Option<T>, current: Option<T>, result: Option<T>)
  {
    (update.Some? ==> result == update) && (update.None? ==> result == current)
  }

  /** The updated user: every field present in the patch overrides, every
      other field of the current user is kept. */
  function Merge(u: User, p: Patch): (r: User)
    ensures Overrides(p.id, u.id, r.id)
    ensures Overrides(p.name, u.name, r.name)
    ensures Overrides(p.email, u.email, r.email)
    ensures OverridesOptional(p.avatar, u.avatar, r.avatar)
    ensures OverridesOptional(p.phone, u.phone, r.phone)
    ensures OverridesOptional(p.address, u.address, r.address)
    ensures OverridesOptional(p.dob, u.dob, r.dob)
    ensures OverridesOptional(p.healthStatus, u.healthStatus, r.healthStatus)
    ensures OverridesOptional(p.vaccinationStatus, u.vaccinationStatus, r.vaccinationStatus)
  {
    User(
      Pick(p.id, u.id),
      Pick(p.name, u.name),
      Pick(p.email, u.email),
      PickOptional(p.avatar, u.avatar),
      PickOptional(p.phone, u.phone),
      PickOptional(p.address, u.address),
      PickOptional(p.dob, u.dob),
      PickOptional(p.healthStatus, u.healthStatus),
      PickOptional(p.vaccinationStatus, u.vaccinationStatus))
  }

  /** Two patches applied one after the other, as one patch: the later one
      wins field by field. */
  function Then(p: Patch, q: Patch): Patch
  {
    Patch(
      PickOptional(q.id, p.id),
      PickOptional(q.name, p.name),
      PickOptional(q.email, p.email),
      PickOptional(q.avatar, p.avatar),
      PickOptional(q.phone, p.phone),
      PickOptional(q.address, p.address),
      PickOptional(q.dob, p.dob),
      PickOptional(q.healthStatus, p.healthStatus),
      PickOptional(q.vaccinationStatus, p.vaccinationStatus))
  }

  /** An empty update changes nothing. */
  lemma MergeNoChanges(u: User)
    ensures Merge(u, NoChanges) == u
  {
  }

  /** Sending the same update twice has the effect of sending it once. */
  lemma MergeIdempotent(u: User, p: Patch)
    ensures Merge(Merge(u, p), p) == Merge(u, p)
  {
  }

  /** Two updates in a row are one combined update. */
  lemma MergeThen(u: User, p: Patch, q: Patch)
    ensures Merge(Merge(u, p), q) == Merge(u, Then(p, q))
  {
  }

  /** The fields of a user that an update carries: the whole record. */
  function FullPatch(u: User): Patch
  {
    Patch(Some(u.id), Some(u.name), Some(u.email), u.avatar, u.phone, u.address, u.dob,
      u.healthStatus, u.vaccinationStatus)
  }

  /** An update that carries every field replaces the user with it, except
      that optional fields it leaves absent are kept. */
  lemma MergeFullPatch(u: User, v: User)
    ensures Merge(u, FullPatch(v)).id == v.id
    ensures Merge(u, FullPatch(v)).name == v.name
    ensures Merge(u, FullPatch(v)).email == v.email
    ensures (v.avatar.Some? && v.phone.Some? && v.address.Some? && v.dob.Some? &&
             v.healthStatus.Some? && v.vaccinationStatus.Some?) ==> Merge(u, FullPatch(v)) == v
  {
  }

  // ---------------------------------------------------------------------
  // Login and signup

  const InvalidCredentials := "Invalid credentials"
  const InvalidSignup := "Invalid signup details"
  const NotAuthenticated := "Not authenticated"

  /** The accepted format: the email holds an `@` and the password's
      `length`, counted in UTF-16 code units, is at least six. */
  predicate ValidCredentials(email: string, password: string)
  {
    '@' in email && Utf16Length(password) >= 6
  }

  /** Signup also needs a non-empty name. */
  predicate ValidSignup(name: string, email: string, password: string)
  {
    name != "" && ValidCredentials(email, password)
  }

  /** The part of the email before its first `@`. */
  function EmailPrefix(email: string): (prefix: string)
    requires '@' in email
    ensures prefix <= email && '@' !in prefix
    ensures |prefix| < |email| && email[|prefix|] == '@'
  {
    BeforeFirst(email, '@')
  }

  /** The result of `login`: with `idSuffix` standing for the random part of
      the id, a user named after the email prefix, with normal health and a
      booster, or the error it throws. */
  function Authenticate(email: string, password: string, idSuffix: string): (r: Result<User, string>)
    ensures r.Failure? <==> '@' !in email || Utf16Length(password) < 6
    ensures r.Failure? ==> r.error == InvalidCredentials
    ensures r.Success? ==> r.value.name == EmailPrefix(email) && r.value.email == email
    ensures r.Success? ==> r.value.id == "user_" + idSuffix
    ensures r.Success? ==> r.value.healthStatus == Some(Normal) && r.value.vaccinationStatus == Some(Boosted)
    ensures r.Success? ==> r.value.avatar.None? && r.value.phone.None? && r.value.address.None? && r.value.dob.None?
  {
    if !ValidCredentials(email, password) then Failure(InvalidCredentials)
    else Success(User("user_" + idSuffix, EmailPrefix(email), email, None, None, None, None,
      Some(Normal), Some(Boosted)))
  }

  /** The result of `signup`: the user as given, with normal health and no
      vaccination, or the error it throws. */
  function Register(name: string, email: string, password: string, idSuffix: string): (r: Result<User, string>)
    ensures r.Failure? <==> name == "" || '@' !in email || Utf16Length(password) < 6
    ensures r.Failure? ==> r.error == InvalidSignup
    ensures r.Success? ==> r.value.name == name && r.value.email == email
    ensures r.Success? ==> r.value.id == "user_" + idSuffix
    ensures r.Success? ==> r.value.healthStatus == Some(Normal) && r.value.vaccinationStatus == Some(NotVaccinated)
    ensures r.Success? ==> r.value.avatar.None? && r.value.phone.None? && r.value.address.None? && r.value.dob.None?
  {
    if !ValidSignup(name, email, password) then Failure(InvalidSignup)
    else Success(User("user_" + idSuffix, name, email, None, None, None, None,
      Some(Normal), Some(NotVaccinated)))
  }

  /** Whatever signs up can also log in with the same email and password,
      and the login names the user after the email prefix. */
  lemma SignupThenLogin(name: string, email: string, password: string, s1: string, s2: string)
    requires Register(name, email, password, s1).Success?
    ensures Authenticate(email, password, s2).Success?
    ensures Authenticate(email, password, s2).value.name == EmailPrefix(email)
  {
  }

  /** Three characters from outside the Basic Multilingual Plane make a
      password of `length` six, so login accepts it. */
  lemma AstralPasswordAccepted(email: string, password: string, idSuffix: string)
    requires '@' in email && |password| == 3
    requires forall i :: 0 <= i < |password| ==> password[i] as int >= 0x10000
    ensures Authenticate(email, password, idSuffix).Success?
  {
    var tail1, tail2 := password[1..], password[2..];
    assert tail1[0] == password[1] && tail1[1..] == tail2;
    assert tail2[0] == password[2] && tail2[1..] == [];
    assert Utf16Length(tail2) == 2;
    assert Utf16Length(tail1) == 4;
    assert Utf16Length(password) == 6;
  }

  /** Two characters from outside the Basic Multilingual Plane and one from
      inside it make a password of `length` five, so login refuses it. */
  lemma MixedPasswordRejected(email: string, password: string, idSuffix: string)
    requires |password| == 3
    requires password[0] as int >= 0x10000 && password[1] as int >= 0x10000 && password[2] as int < 0x10000
    ensures Authenticate(email, password, idSuffix).Failure?
  {
    Utf16LengthAppend(password[..1], password[1..]);
    Utf16LengthAppend(password[1..2], password[2..]);
    assert password[..1] + password[1..] == password;
    assert password[1..2] + password[2..] == password[1..];
    assert Utf16Length(password) == 5;
  }

  // ---------------------------------------------------------------------
  // The provider state

  /** The provider: the signed-in user, the loading flag, and the copy of
      the user kept in browser storage. */
  class AuthProvider {
    var user: Option<User>
    var isLoading: bool
    var stored: Option<User>

    /** Before the mount effect: nobody signed in, still loading. */
    constructor (storedUser: Option<User>)
      ensures user == None && isLoading && stored == storedUser
    {
      user, isLoading, stored := None, true, storedUser;
    }

    /** `isAuthenticated`. */
    predicate IsAuthenticated()
      reads this
    {
      user.Some?
    }

    /** The stored copy agrees with the user in memory. */
    predicate Synced()
      reads this
    {
      stored == user
    }

    /** The mount effect: a stored user is restored, and loading ends. */
    method Restore()
      modifies this
      ensures user == (if old(stored).Some? then old(stored) else old(user))
      ensures stored == old(stored) && !isLoading
    {
      if stored.Some? {
        user := stored;
      }
      isLoading := false;
    }

    /** `login`, with the wait taken as immediate. On success the user is
        signed in and stored; on failure the error is returned and the user
        and the stored copy stay as they were. Loading ends either way. */
    method Login(email: string, password: string, idSuffix: string) returns (err: Option<string>)
      modifies this
      ensures !isLoading
      ensures err.None? <==> ValidCredentials(email, password)
      ensures err.None? ==> user == Some(Authenticate(email, password, idSuffix).value) && Synced()
      ensures err.None? ==> IsAuthenticated() && user.value.name == EmailPrefix(email)
      ensures err.Some? ==> err == Some(InvalidCredentials) && user == old(user) && stored == old(stored)
    {
      isLoading := true;
      var r := Authenticate(email, password, idSuffix);
      match r {
        case Success(u) =>
          stored := Some(u);
          user := Some(u);
          err := None;
        case Failure(e) =>
          err := Some(e);
      }
      isLoading := false;
    }

    /** `signup`, with the same shape as `login`. */
    method Signup(name: string, email: string, password: string, idSuffix: string) returns (err: Option<string>)
      modifies this
      ensures !isLoading
      ensures err.None? <==> ValidSignup(name, email, password)
      ensures err.None? ==> user == Some(Register(name, email, password, idSuffix).value) && Synced()
      ensures err.None? ==> IsAuthenticated() && user.value.name == name
      ensures err.Some? ==> err == Some(InvalidSignup) && user == old(user) && stored == old(stored)
    {
      isLoading := true;
      var r := Register(name, email, password, idSuffix);
      match r {
        case Success(u) =>
          stored := Some(u);
          user := Some(u);
          err := None;
        case Failure(e) =>
          err := Some(e);
      }
      isLoading := false;
    }

    /** `updateProfile`: refused without touching anything when nobody is
        signed in; otherwise the merged user replaces the old one in memory
        and in storage, and loading ends. */
    method UpdateProfile(patch: Patch) returns (err: Option<string>)
      modifies this
      ensures old(user).None? ==> err == Some(NotAuthenticated)
      ensures old(user).None? ==> user == old(user) && stored == old(stored) && isLoading == old(isLoading)
      ensures old(user).Some? ==> err.None? && !isLoading && Synced()
      ensures old(user).Some? ==> user == Some(Merge(old(user).value, patch))
    {
      if user.None? {
        return Some(NotAuthenticated);
      }
      isLoading := true;
      var updated := Merge(user.value, patch);
      stored := Some(updated);
      user := Some(updated);
      isLoading := false;
      err := None;
    }

    /** `logout`: the user and the stored copy are cleared. */
    method Logout()
      modifies this
      ensures user == None && stored == None && !IsAuthenticated() && Synced()
      ensures isLoading == old(isLoading)
    {
      stored := None;
      user := None;
    }
  }
}

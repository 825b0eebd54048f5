/** The session provider (src/context/AuthContext.tsx): the logged-in user
    record, replaced by `login`, `logout` and `updateProfile`. The token
    balance that the ledger moves is this record's `tokens` field. */
module Auth {
  import opened Wrappers
  import opened Records

  /** `Partial<User>`: the fields one `updateProfile` call supplies. */
  datatype UserPatch = UserPatch(
    id: Option<string>,
    name: Option<string>,
    email: Option<string>,
    studentId: Option<string>,
    major: Option<string>,
    year: Option<int>,
    avatar: Option<string>,
    tokens: Option<int>,
    createdAt: Option<int>)

  const EmptyPatch := UserPatch(None, None, None, None, None, None, None, None, None)

  /** `{ tokens: t }`. */
  function TokensPatch(t: int): (p: UserPatch)
    ensures p.tokens == Some(t)
  {
    EmptyPatch.(tokens := Some(t))
  }

  /** `{ ...u, ...p }`: every supplied field overwrites, every other is kept. */
  function Merge(u: User, p: UserPatch): (r: User)
  {
    User(
      p.id.GetOr(u.id),
      p.name.GetOr(u.name),
      p.email.GetOr(u.email),
      p.studentId.GetOr(u.studentId),
      p.major.GetOr(u.major),
      p.year.GetOr(u.year),
      p.avatar.GetOr(u.avatar),
      p.tokens.GetOr(u.tokens),
      p.createdAt.GetOr(u.createdAt))
  }

  /** A patch with only `tokens` changes the balance and nothing else. */
  lemma MergeTokensOnly(u: User, t: int)
    ensures Merge(u, TokensPatch(t)) == u.(tokens := t)
  {
  }

  /** Supplied fields are overwritten, all others are left as they were. */
  lemma MergeFields(u: User, p: UserPatch)
    ensures Merge(u, p).id == (if p.id.Some? then p.id.value else u.id)
    ensures Merge(u, p).name == (if p.name.Some? then p.name.value else u.name)
    ensures Merge(u, p).email == (if p.email.Some? then p.email.value else u.email)
    ensures Merge(u, p).studentId == (if p.studentId.Some? then p.studentId.value else u.studentId)
    ensures Merge(u, p).major == (if p.major.Some? then p.major.value else u.major)
    ensures Merge(u, p).year == (if p.year.Some? then p.year.value else u.year)
    ensures Merge(u, p).avatar == (if p.avatar.Some? then p.avatar.value else u.avatar)
    ensures Merge(u, p).tokens == (if p.tokens.Some? then p.tokens.value else u.tokens)
    ensures Merge(u, p).createdAt == (if p.createdAt.Some? then p.createdAt.value else u.createdAt)
    ensures p == EmptyPatch ==> Merge(u, p) == u
  {
  }

  /** Applying the same patch twice is the same as applying it once. */
  lemma MergeIdempotent(u: User, p: UserPatch)
    ensures Merge(Merge(u, p), p) == Merge(u, p)
  {
  }

  class AuthSession {
    /** `user`, null when logged out. */
    var user: Option<User>
    /** The shared fixture row that `getCurrentUser()` returns and `login` edits. */
    var fixture: User

    /** The initial load: the saved user, or the fixture user when there is
        none or it does not parse. */
    constructor (saved: Stored<User>)
      ensures fixture == DefaultUser()
      ensures user == Some(if saved.Present? then saved.value else DefaultUser())
    {
      fixture := DefaultUser();
      user := Some(if saved.Present? then saved.value else DefaultUser());
    }

    /** `isAuthenticated`: `!!user`. */
    predicate IsAuthenticated()
      reads this
    {
      user.Some?
    }

    /** Every e-mail and password is accepted: the fixture user, with the
        entered e-mail written into the shared fixture, becomes the user. */
    method Login(email: string, password: string) returns (ok: bool)
      modifies this
      ensures ok
      ensures fixture == old(fixture).(email := email)
      ensures user == Some(fixture) && IsAuthenticated()
    {
      fixture := fixture.(email := email);
      user := Some(fixture);
      ok := true;
    }

    method Logout()
      modifies this
      ensures user == None && !IsAuthenticated()
      ensures fixture == old(fixture)
    {
      user := None;
    }

    /** Does nothing when logged out; otherwise merges the patch into the user. */
    method UpdateProfile(patch: UserPatch)
      modifies this
      ensures old(user).None? ==> user == None
      ensures old(user).Some? ==> user == Some(Merge(old(user).value, patch))
      ensures fixture == old(fixture)
    {
      if user.None? {
        return;
      }
      user := Some(Merge(user.value, patch));
    }
  }
}

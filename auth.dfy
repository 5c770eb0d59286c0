/**
 * The mock session: who is signed in and whether anyone is. Login, registration,
 * logout and profile edits are transitions on that pair.
 */
module Auth {
  import opened Wrappers

  datatype User = User(id: string, name: string, email: string, address: Option<string>)

  /** A partial user, as `updateProfile` receives it: each field either supplied or not. */
  datatype UserPatch = UserPatch(id: Option<string>, name: Option<string>,
                                 email: Option<string>, address: Option<string>)

  /** The patch that supplies nothing. */
  const NoChanges: UserPatch := UserPatch(None, None, None, None)

  const MockUserId: string := "123"
  const MockUserName: string := "Demo User"
  const MockAddress: string := "Sample Address, City, India"

  /** `{...user, ...data}`: every supplied field replaces the user's, the rest stay. */
  function ApplyPatch(u: User, data: UserPatch): (r: User)
    ensures data.id.Some? ==> r.id == data.id.value
    ensures data.id.None? ==> r.id == u.id
    ensures data.name.Some? ==> r.name == data.name.value
    ensures data.name.None? ==> r.name == u.name
    ensures data.email.Some? ==> r.email == data.email.value
    ensures data.email.None? ==> r.email == u.email
    ensures data.address.Some? ==> r.address == data.address
    ensures data.address.None? ==> r.address == u.address
  {
    User(data.id.GetOr(u.id), data.name.GetOr(u.name), data.email.GetOr(u.email),
         if data.address.Some? then data.address else u.address)
  }

  /** The patch that applies `first` and then `second`: later fields win. */
  function Then(first: UserPatch, second: UserPatch): UserPatch {
    UserPatch(if second.id.Some? then second.id else first.id,
              if second.name.Some? then second.name else first.name,
              if second.email.Some? then second.email else first.email,
              if second.address.Some? then second.address else first.address)
  }

  /** An empty patch changes nothing. */
  lemma EmptyPatchIsIdentity(u: User)
    ensures ApplyPatch(u, NoChanges) == u
  {
  }

  /** Applying the same patch twice is applying it once. */
  lemma PatchIdempotent(u: User, data: UserPatch)
    ensures ApplyPatch(ApplyPatch(u, data), data) == ApplyPatch(u, data)
  {
  }

  /** Two successive edits are one edit with the later fields winning. */
  lemma PatchesCompose(u: User, first: UserPatch, second: UserPatch)
    ensures ApplyPatch(ApplyPatch(u, first), second) == ApplyPatch(u, Then(first, second))
  {
  }

  /** Patching with a user's own fields leaves it as it is. */
  lemma PatchWithOwnFields(u: User)
    ensures ApplyPatch(u, UserPatch(Some(u.id), Some(u.name), Some(u.email), u.address)) == u
  {
  }

  class Session {
    var user: Option<User>
    var isAuthenticated: bool

    /** Someone is signed in exactly when there is a user. */
    ghost predicate Valid()
      reads this
    {
      isAuthenticated <==> user.Some?
    }

    constructor ()
      ensures user == None && !isAuthenticated && Valid()
    {
      user := None;
      isAuthenticated := false;
    }

    /** Signs in as the demo user under the given email; the password is not checked. */
    method Login(email: string, password: string)
      modifies this
      ensures user == Some(User(MockUserId, MockUserName, email, Some(MockAddress)))
      ensures isAuthenticated && Valid()
    {
      user := Some(User(MockUserId, MockUserName, email, Some(MockAddress)));
      isAuthenticated := true;
    }

    /** Signs in as a new user with the given name and email and no address. */
    method Register(name: string, email: string, password: string)
      modifies this
      ensures user == Some(User(MockUserId, name, email, None))
      ensures isAuthenticated && Valid()
    {
      user := Some(User(MockUserId, name, email, None));
      isAuthenticated := true;
    }

    /** Signs out whoever is signed in. */
    method Logout()
      modifies this
      ensures user == None && !isAuthenticated && Valid()
    {
      user := None;
      isAuthenticated := false;
    }

    /** Edits the signed-in user's profile; nobody signed in means nothing happens. */
    method UpdateProfile(data: UserPatch)
      modifies this
      ensures old(user).None? ==> user == None
      ensures old(user).Some? ==> user == Some(ApplyPatch(old(user).value, data))
      ensures isAuthenticated == old(isAuthenticated)
      ensures old(Valid()) ==> Valid()
    {
      if user.Some? {
        user := Some(ApplyPatch(user.value, data));
      }
    }
  }
}

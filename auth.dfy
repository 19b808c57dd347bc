/** The authentication context (`AuthProvider`): the React state cells `user`
    and `loading`, and the actions that wrap the identity provider's calls.
    The provider itself is outside the model: each of its promises is a
    `Settled` value given to the action, and the provider's own signed-in
    user (`auth.currentUser`) is a separate field that the provider's
    documented behaviour updates when a call succeeds. */
module Auth {
  import opened Ui

  /** A property value of a user record. */
  datatype Value = Null | Str(s: string) | Flag(b: bool)

  /** A user object, seen as its own enumerable properties. */
  type UserRecord = map<string, Value>

  /** A rejected promise's error: `error.code` ("" when absent) and `error.message`. */
  datatype AuthError = AuthError(code: string, message: string)

  /** What a promise settles to. */
  datatype Settled<T> = Resolved(value: T) | Rejected(error: AuthError)

  /** A call made into the identity provider. */
  datatype ProviderCall =
    | CreateAccount(email: string, password: string)
    | PasswordSignIn(email: string, password: string)
    | GooglePopup
    | SignOut
    | UpdateProfile(updates: UserRecord)

  /** The rejection of `updateUserProfile` when nobody is signed in. */
  const NoUserError := AuthError("", "No user logged in")

  /** The toast `signInUser` raises before it calls the provider. */
  const SignedInToast := Toast(Success, "Successfully Logged In!")

  /** The object spread `{ ...base, ...updates }`; spreading `null` adds nothing. */
  function Merge(base: Option<UserRecord>, updates: UserRecord): UserRecord {
    (if base.Some? then base.value else map[]) + updates
  }

  /** A patched key takes the patch's value; any other key is present
      exactly when the base has it, and then keeps the base's value. */
  lemma MergeFields(base: Option<UserRecord>, updates: UserRecord)
    ensures var r := Merge(base, updates);
      && (forall k :: k in updates ==> k in r && r[k] == updates[k])
      && (forall k :: k !in updates ==> (k in r <==> base.Some? && k in base.value))
      && (forall k :: k in r && k !in updates ==> r[k] == base.value[k])
  {
  }

  /** Applying the same patch twice is applying it once. */
  lemma MergeIdempotent(base: Option<UserRecord>, updates: UserRecord)
    ensures Merge(Some(Merge(base, updates)), updates) == Merge(base, updates)
  {
  }

  /** Merging onto `null` yields the patch alone. */
  lemma MergeOntoNothing(updates: UserRecord)
    ensures Merge(None, updates) == updates
  {
  }

  /** Renaming a user keeps the picture: `{displayName: "Old", photoURL: "p"}`
      patched with `{displayName: "New"}` is `{displayName: "New", photoURL: "p"}`. */
  lemma MergeKeepsUnpatchedFields()
    ensures Merge(Some(map["displayName" := Str("Old"), "photoURL" := Str("p")]),
                  map["displayName" := Str("New")])
         == map["displayName" := Str("New"), "photoURL" := Str("p")]
  {
    var r := Merge(Some(map["displayName" := Str("Old"), "photoURL" := Str("p")]),
                   map["displayName" := Str("New")]);
    assert r.Keys == {"displayName", "photoURL"};
  }

  class AuthProvider {
    /** React state `user`. */
    var user: Option<UserRecord>
    /** React state `loading`. */
    var loading: bool
    /** The provider's `auth.currentUser`. */
    var currentUser: Option<UserRecord>
    /** The provider calls made so far, oldest first. */
    ghost var calls: seq<ProviderCall>

    /** Mounting: `user` starts as `null` and `loading` as `true`; the
        provider's signed-in user is whatever it holds at that moment. */
    constructor (providerUser: Option<UserRecord>)
      ensures user == None && loading
      ensures currentUser == providerUser && calls == []
    {
      user := None;
      loading := true;
      currentUser := providerUser;
      calls := [];
    }

    /** The `onAuthStateChanged` observer: the delivered user, possibly
        `null`, replaces `user` outright and `loading` ends. Nothing of the
        previous state survives, so the latest notification wins. */
    method OnAuthStateChanged(delivered: Option<UserRecord>)
      modifies this`user, this`loading
      ensures user == delivered && !loading
    {
      user := delivered;
      loading := false;
    }

    /** `createUser`: sets `loading` and hands over to the provider, which
        signs the new account in when it succeeds. `user` is left to the
        observer. */
    method CreateUser(email: string, password: string, result: Settled<UserRecord>)
      returns (p: Settled<UserRecord>)
      modifies this`loading, this`currentUser, this`calls
      ensures p == result && loading && user == old(user)
      ensures calls == old(calls) + [CreateAccount(email, password)]
      ensures currentUser == if result.Resolved? then Some(result.value) else old(currentUser)
    {
      loading := true;
      calls := calls + [CreateAccount(email, password)];
      if result.Resolved? {
        currentUser := Some(result.value);
      }
      p := result;
    }

    /** `updateUserProfile`: guarded by the provider's signed-in user, not by
        `user`. With nobody signed in it rejects with 'No user logged in' and
        calls nothing. Otherwise, once the provider has applied the patch,
        `user` becomes `captured` with the patch spread over it, where
        `captured` is the `user` of the render whose `updateUserProfile` the
        caller holds. `loading` is never touched. */
    method UpdateUserProfile(updates: UserRecord, captured: Option<UserRecord>, result: Settled<()>)
      returns (p: Settled<()>)
      modifies this`user, this`currentUser, this`calls
      ensures old(currentUser).None? ==>
        p == Rejected(NoUserError) && calls == old(calls)
        && user == old(user) && currentUser == old(currentUser)
      ensures old(currentUser).Some? ==>
        p == result && calls == old(calls) + [UpdateProfile(updates)]
      ensures old(currentUser).Some? && result.Resolved? ==>
        user == Some(Merge(captured, updates))
        && currentUser == Some(Merge(old(currentUser), updates))
      ensures result.Rejected? ==> user == old(user) && currentUser == old(currentUser)
      ensures loading == old(loading)
    {
      if currentUser.Some? {
        calls := calls + [UpdateProfile(updates)];
        if result.Resolved? {
          currentUser := Some(Merge(currentUser, updates));
          user := Some(Merge(captured, updates));
        }
        p := result;
      } else {
        p := Rejected(NoUserError);
      }
    }

    /** `signInUser`: raises the success toast before the provider has
        answered, and changes neither `user` nor `loading`. */
    method SignInUser(email: string, password: string, result: Settled<UserRecord>)
      returns (p: Settled<UserRecord>, toast: Toast)
      modifies this`currentUser, this`calls
      ensures p == result && toast == SignedInToast
      ensures user == old(user) && loading == old(loading)
      ensures calls == old(calls) + [PasswordSignIn(email, password)]
      ensures currentUser == if result.Resolved? then Some(result.value) else old(currentUser)
    {
      toast := SignedInToast;
      calls := calls + [PasswordSignIn(email, password)];
      if result.Resolved? {
        currentUser := Some(result.value);
      }
      p := result;
    }

    /** `googleSignIn`: sets `loading` and opens the provider's popup;
        `user` is left to the observer. */
    method GoogleSignIn(result: Settled<UserRecord>) returns (p: Settled<UserRecord>)
      modifies this`loading, this`currentUser, this`calls
      ensures p == result && loading && user == old(user)
      ensures calls == old(calls) + [GooglePopup]
      ensures currentUser == if result.Resolved? then Some(result.value) else old(currentUser)
    {
      loading := true;
      calls := calls + [GooglePopup];
      if result.Resolved? {
        currentUser := Some(result.value);
      }
      p := result;
    }

    /** `signInWithGoogle`: the same action as `googleSignIn`. */
    method SignInWithGoogle(result: Settled<UserRecord>) returns (p: Settled<UserRecord>)
      modifies this`loading, this`currentUser, this`calls
      ensures p == result && loading && user == old(user)
      ensures calls == old(calls) + [GooglePopup]
      ensures currentUser == if result.Resolved? then Some(result.value) else old(currentUser)
    {
      p := GoogleSignIn(result);
    }

    /** `signOutUser`: sets `loading`; when the provider confirms, `user`
        becomes `null` and `loading` ends. When the provider fails, `user` is
        kept and `loading` stays set. */
    method SignOutUser(result: Settled<()>) returns (p: Settled<()>)
      modifies this`user, this`loading, this`currentUser, this`calls
      ensures p == result
      ensures calls == old(calls) + [SignOut]
      ensures result.Resolved? ==> user == None && !loading && currentUser == None
      ensures result.Rejected? ==> user == old(user) && loading && currentUser == old(currentUser)
    {
      loading := true;
      calls := calls + [SignOut];
      if result.Resolved? {
        currentUser := None;
        user := None;
        loading := false;
      }
      p := result;
    }
  }

  /** Signing out while nobody is signed in leaves nobody signed in, and
      a later observer notification of `null` changes nothing further. */
  method SignOutWhenAnonymous() returns (a: AuthProvider)
    ensures a.user == None && !a.loading && a.currentUser == None && a.calls == [SignOut]
  {
    a := new AuthProvider(None);
    a.OnAuthStateChanged(None);
    var p := a.SignOutUser(Resolved(()));
    a.OnAuthStateChanged(None);
  }
}

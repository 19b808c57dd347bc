/** The registration page: the password rule checker, the controlled form,
    and the submit handler with its ordered guards, its two provider calls
    and its error-code messages. */
module RegisterPage {
  import opened Text
  import opened Ui
  import opened Auth

  const TooShort := "Password must be at least 6 characters"
  const NoUppercase := "Password must contain an Uppercase letter"
  const NoLowercase := "Password must contain a Lowercase letter"

  const NameMissing := "Please enter your name"
  const EmailMissing := "Please enter your email"
  const PhotoMissing := "Please enter a photo URL"
  const PasswordUnfit := "Please fix password requirements"

  const AccountCreated := "Account created successfully!"
  const EmailTaken := "This email is already registered"
  const EmailInvalid := "Invalid email address"
  const PasswordWeak := "Password is too weak"
  const RegistrationFailed := "Registration failed. Please try again."
  const GoogleSignedUp := "Signed up with Google successfully!"
  const GoogleSignUpFailed := "Google sign-up failed. Please try again."

  /** `/[A-Z]/.test(s)`. */
  predicate HasUpper(s: string) {
    exists i :: 0 <= i < |s| && 'A' <= s[i] <= 'Z'
  }

  /** `/[a-z]/.test(s)`. */
  predicate HasLower(s: string) {
    exists i :: 0 <= i < |s| && 'a' <= s[i] <= 'z'
  }

  /** The rank of a rule message in the order the rules are checked. */
  function RuleRank(m: string): nat {
    if m == TooShort then 0 else if m == NoUppercase then 1 else 2
  }

  /** `validatePassword`: one message per broken rule, in rule order. */
  function ValidatePassword(pass: string): seq<string> {
    (if |pass| < 6 then [TooShort] else [])
    + (if !HasUpper(pass) then [NoUppercase] else [])
    + (if !HasLower(pass) then [NoLowercase] else [])
  }

  /** Each rule message is present exactly when its rule is broken, nothing
      else is listed, and the messages keep the order length, capital, small
      letter, so there are at most three. */
  lemma ValidatePasswordRules(pass: string)
    ensures var errs := ValidatePassword(pass);
      && |errs| <= 3
      && (forall i :: 0 <= i < |errs| ==> errs[i] in {TooShort, NoUppercase, NoLowercase})
      && (TooShort in errs <==> |pass| < 6)
      && (NoUppercase in errs <==> !HasUpper(pass))
      && (NoLowercase in errs <==> !HasLower(pass))
      && (forall i, j :: 0 <= i < j < |errs| ==> RuleRank(errs[i]) < RuleRank(errs[j]))
  {
  }

  /** A password passes exactly when it has six or more characters, an
      ASCII capital and an ASCII small letter. */
  lemma ValidatePasswordEmptyIff(pass: string)
    ensures ValidatePassword(pass) == [] <==> |pass| >= 6 && HasUpper(pass) && HasLower(pass)
  {
    ValidatePasswordRules(pass);
    var errs := ValidatePassword(pass);
    if errs != [] {
      assert errs[0] in errs;
    }
  }

  /** "Ab1234" passes; "abc" is too short and lacks a capital, in that order. */
  lemma ValidatePasswordExamples()
    ensures ValidatePassword("Ab1234") == []
    ensures ValidatePassword("abc") == [TooShort, NoUppercase]
  {
    assert "Ab1234"[0] == 'A' && "Ab1234"[1] == 'b';
    assert "abc"[0] == 'a';
  }

  datatype Field = Name | Email | PhotoURL | Password

  datatype FormData = FormData(name: string, email: string, photoURL: string, password: string)

  const EmptyForm := FormData("", "", "", "")

  function Get(f: FormData, field: Field): string {
    match field
    case Name => f.name
    case Email => f.email
    case PhotoURL => f.photoURL
    case Password => f.password
  }

  /** `{ ...prev, [name]: value }`: the named field takes the value, every
      other field keeps its own. */
  function WithField(f: FormData, field: Field, value: string): (r: FormData)
    ensures Get(r, field) == value
    ensures forall other :: other != field ==> Get(r, other) == Get(f, other)
  {
    match field
    case Name => f.(name := value)
    case Email => f.(email := value)
    case PhotoURL => f.(photoURL := value)
    case Password => f.(password := value)
  }

  /** The error list the form keeps for a stored password. */
  function ErrorsFor(password: string): seq<string> {
    if password == "" then [] else ValidatePassword(password)
  }

  /** The submit guards, in order: name, e-mail, photo URL, then the stored
      password-error list (not a fresh validation). The first failing guard
      gives the message; `None` lets the submission through. */
  function SubmitCheck(f: FormData, passwordErrors: seq<string>): (r: Option<string>)
    ensures r.None? <==>
      !IsBlank(f.name) && !IsBlank(f.email) && !IsBlank(f.photoURL) && passwordErrors == []
    ensures r.Some? ==> r.value in {NameMissing, EmailMissing, PhotoMissing, PasswordUnfit}
    ensures r == Some(NameMissing) <==> IsBlank(f.name)
    ensures r == Some(EmailMissing) <==> !IsBlank(f.name) && IsBlank(f.email)
    ensures r == Some(PhotoMissing) <==> !IsBlank(f.name) && !IsBlank(f.email) && IsBlank(f.photoURL)
    ensures r == Some(PasswordUnfit) <==>
      !IsBlank(f.name) && !IsBlank(f.email) && !IsBlank(f.photoURL) && passwordErrors != []
  {
    assert |NameMissing| == 22 && |EmailMissing| == 23 && |PhotoMissing| == 24 && |PasswordUnfit| == 32;
    if IsBlank(f.name) then Some(NameMissing)
    else if IsBlank(f.email) then Some(EmailMissing)
    else if IsBlank(f.photoURL) then Some(PhotoMissing)
    else if |passwordErrors| > 0 then Some(PasswordUnfit)
    else None
  }

  /** With the error list kept in step with the password, a submission gets
      through only with a password that meets every rule or with none at all. */
  lemma SubmittedPasswordMeetsRules(f: FormData)
    requires SubmitCheck(f, ErrorsFor(f.password)).None?
    ensures f.password == "" || (|f.password| >= 6 && HasUpper(f.password) && HasLower(f.password))
  {
    ValidatePasswordEmptyIff(f.password);
  }

  /** The empty password breaks all three rules. */
  lemma EmptyPasswordBreaksEveryRule()
    ensures ValidatePassword("") == [TooShort, NoUppercase, NoLowercase]
  {
    assert !HasUpper("") && !HasLower("");
  }

  /** A password field never typed in passes the local guard once the
      other fields are filled, although the empty password breaks every rule. */
  lemma UntypedPasswordPassesGuard(f: FormData)
    requires !IsBlank(f.name) && !IsBlank(f.email) && !IsBlank(f.photoURL) && f.password == ""
    ensures SubmitCheck(f, ErrorsFor(f.password)).None?
    ensures ValidatePassword(f.password) == [TooShort, NoUppercase, NoLowercase]
  {
    assert ErrorsFor(f.password) == [];
    EmptyPasswordBreaksEveryRule();
  }

  /** The message shown for a failed registration: the three known codes
      have fixed texts, anything else shows its own message, or the default
      text when that is empty. Something is always shown. */
  function RegisterErrorMessage(e: AuthError): (m: string)
    ensures |m| > 0
    ensures e.code == "auth/email-already-in-use" ==> m == EmailTaken
    ensures e.code == "auth/invalid-email" ==> m == EmailInvalid
    ensures e.code == "auth/weak-password" ==> m == PasswordWeak
    ensures e.code !in {"auth/email-already-in-use", "auth/invalid-email", "auth/weak-password"} ==>
      m == if e.message != "" then e.message else RegistrationFailed
  {
    if e.code == "auth/email-already-in-use" then EmailTaken
    else if e.code == "auth/invalid-email" then EmailInvalid
    else if e.code == "auth/weak-password" then PasswordWeak
    else if e.message != "" then e.message
    else RegistrationFailed
  }

  /** The profile patch sent after the account exists. */
  function ProfilePatch(f: FormData): UserRecord {
    map["displayName" := Str(f.name), "photoURL" := Str(f.photoURL)]
  }

  /** After a successful registration the user shows the name and photo URL
      as typed (untrimmed) and keeps every other property it had. */
  lemma RegisteredUserShowsForm(user: Option<UserRecord>, f: FormData, key: string)
    requires key != "displayName" && key != "photoURL"
    ensures var u := Merge(user, ProfilePatch(f));
      && u["displayName"] == Str(f.name) && u["photoURL"] == Str(f.photoURL)
      && (key in u <==> user.Some? && key in user.value)
      && (key in u ==> u[key] == user.value[key])
  {
    MergeFields(user, ProfilePatch(f));
  }

  /** The state a submission that passed the guards leaves behind, given the
      form `f` and error list `errs` it started from, the React `user`, the
      provider's signed-in user and the provider call log before it, and the
      two provider results. */
  ghost predicate SubmissionOutcome(
    f: FormData, errs: seq<string>,
    user0: Option<UserRecord>, currentUser0: Option<UserRecord>, calls0: seq<ProviderCall>,
    created: Settled<UserRecord>, patched: Settled<()>,
    nav: Option<Navigation>, toast: Option<Toast>, f': FormData, errs': seq<string>, loading: bool,
    user: Option<UserRecord>, authLoading: bool, currentUser: Option<UserRecord>, calls: seq<ProviderCall>)
  {
    var creation := CreateAccount(f.email, f.password);
    && !loading && authLoading
    && (created.Rejected? ==>
          toast == Some(Toast(Error, RegisterErrorMessage(created.error))) && nav == None
          && f' == f && errs' == errs && calls == calls0 + [creation] && user == user0
          && currentUser == currentUser0)
    && (created.Resolved? ==>
          calls == calls0 + [creation, UpdateProfile(ProfilePatch(f))])
    && (created.Resolved? && patched.Rejected? ==>
          toast == Some(Toast(Error, RegisterErrorMessage(patched.error))) && nav == None
          && f' == f && errs' == errs && user == user0 && currentUser == Some(created.value))
    && (created.Resolved? && patched.Resolved? ==>
          toast == Some(Toast(Success, AccountCreated)) && nav == Some(GoTo("/"))
          && f' == EmptyForm && errs' == []
          && user == Some(Merge(user0, ProfilePatch(f)))
          && currentUser == Some(Merge(Some(created.value), ProfilePatch(f))))
  }

  class Register {
    var formData: FormData
    var passwordErrors: seq<string>
    /** The page's own toast; `None` when hidden. */
    var toast: Option<Toast>
    var loading: bool

    /** The error list is the one for the stored password. */
    ghost predicate Valid()
      reads this
    {
      passwordErrors == ErrorsFor(formData.password)
    }

    constructor ()
      ensures formData == EmptyForm && passwordErrors == [] && toast == None && !loading
      ensures Valid()
    {
      formData := EmptyForm;
      passwordErrors := [];
      toast := None;
      loading := false;
    }

    /** `handleInputChange`: only the named field changes; a password edit
        re-validates (or clears the list for an empty password), and other
        edits leave the error list alone. */
    method HandleInputChange(field: Field, value: string)
      modifies this`formData, this`passwordErrors
      ensures formData == WithField(old(formData), field, value)
      ensures field == Password && value == "" ==> passwordErrors == []
      ensures field == Password && value != "" ==> passwordErrors == ValidatePassword(value)
      ensures field != Password ==> passwordErrors == old(passwordErrors)
      ensures old(Valid()) ==> Valid()
    {
      formData := WithField(formData, field, value);
      if field == Password {
        if |value| > 0 {
          passwordErrors := ValidatePassword(value);
        } else {
          passwordErrors := [];
        }
      }
    }

    /** `handleRegister`. A failing guard shows its message, calls nothing and
        changes nothing else; otherwise the form goes to the provider. */
    method HandleRegister(auth: AuthProvider, created: Settled<UserRecord>, patched: Settled<()>)
      returns (nav: Option<Navigation>)
      modifies this, auth
      ensures old(Valid()) ==> Valid()
      ensures var check := SubmitCheck(old(formData), old(passwordErrors));
        check.Some? ==>
          toast == Some(Toast(Error, check.value)) && nav == None
          && formData == old(formData) && passwordErrors == old(passwordErrors)
          && loading == old(loading)
          && auth.calls == old(auth.calls) && auth.user == old(auth.user)
          && auth.loading == old(auth.loading) && auth.currentUser == old(auth.currentUser)
      ensures SubmitCheck(old(formData), old(passwordErrors)).None? ==>
        SubmissionOutcome(old(formData), old(passwordErrors),
                          old(auth.user), old(auth.currentUser), old(auth.calls),
                          created, patched, nav, toast, formData, passwordErrors, loading,
                          auth.user, auth.loading, auth.currentUser, auth.calls)
    {
      var check := SubmitCheck(formData, passwordErrors);
      if check.Some? {
        toast := Some(Toast(Error, check.value));
        return None;
      }
      nav := Submit(auth, created, patched);
    }

    /** The part of `handleRegister` after the guards. The account is created
        and then, if that succeeded, the profile is patched with the name and
        photo URL; only when both succeed is the form cleared and the visitor
        sent to "/". A failure at either step shows the mapped message, keeps
        the form, and does not undo the account. `loading` ends false. */
    method Submit(auth: AuthProvider, created: Settled<UserRecord>, patched: Settled<()>)
      returns (nav: Option<Navigation>)
      modifies this, auth
      ensures old(Valid()) ==> Valid()
      ensures SubmissionOutcome(old(formData), old(passwordErrors),
                                old(auth.user), old(auth.currentUser), old(auth.calls),
                                created, patched, nav, toast, formData, passwordErrors, loading,
                                auth.user, auth.loading, auth.currentUser, auth.calls)
    {
      loading := true;
      var captured := auth.user;
      var patch := ProfilePatch(formData);
      var p := auth.CreateUser(formData.email, formData.password, created);
      if p.Rejected? {
        toast := Some(Toast(Error, RegisterErrorMessage(p.error)));
        loading := false;
        return None;
      }
      var q := auth.UpdateUserProfile(patch, captured, patched);
      if q.Rejected? {
        toast := Some(Toast(Error, RegisterErrorMessage(q.error)));
        loading := false;
        return None;
      }
      toast := Some(Toast(Success, AccountCreated));
      formData := EmptyForm;
      passwordErrors := [];
      loading := false;
      nav := Some(GoTo("/"));
    }

    /** The timer that hides the toast. */
    method HideToast()
      modifies this`toast
      ensures toast == None
    {
      toast := None;
    }

    /** `handleGoogleSignUp`: opens the provider's popup; success shows the
        sign-up toast and sends the visitor to "/", failure shows the error's
        message or the default text. `loading` ends false. */
    method HandleGoogleSignUp(auth: AuthProvider, result: Settled<UserRecord>)
      returns (nav: Option<Navigation>)
      modifies this`toast, this`loading, auth`loading, auth`currentUser, auth`calls
      ensures !loading && auth.loading
      ensures auth.calls == old(auth.calls) + [GooglePopup]
      ensures auth.currentUser == if result.Resolved? then Some(result.value) else old(auth.currentUser)
      ensures result.Resolved? ==>
        toast == Some(Toast(Success, GoogleSignedUp)) && nav == Some(GoTo("/"))
      ensures result.Rejected? ==>
        nav == None
        && toast == Some(Toast(Error, if result.error.message != "" then result.error.message
                                      else GoogleSignUpFailed))
    {
      loading := true;
      var p := auth.GoogleSignIn(result);
      if p.Resolved? {
        toast := Some(Toast(Success, GoogleSignedUp));
        nav := Some(GoTo("/"));
      } else {
        toast := Some(Toast(Error, if p.error.message != "" then p.error.message
                                   else GoogleSignUpFailed));
        nav := None;
      }
      loading := false;
    }
  }
}

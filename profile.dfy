/** The profile page: the edit fields' starting values, the update handler
    with its payload and avatar fallback, and the choice of error or success
    styling for the message. */
module ProfilePage {
  import opened Text
  import opened Ui
  import opened Auth

  const AvatarFallback := "https://i.postimg.cc/RVgJYLjg/avatar-placeholder.png"

  const NameRequired := "Please enter your name"
  const ProfileUpdated := "Profile updated successfully!"
  const UpdateFailed := "Error updating profile"

  /** `user?.[key] || ""` for a property that holds a string or `null`. */
  function FieldOrEmpty(user: Option<UserRecord>, key: string): (r: string)
    ensures r != "" ==> user.Some? && key in user.value && user.value[key] == Str(r)
    ensures user.Some? && key in user.value && user.value[key].Str? ==> r == user.value[key].s
  {
    if user.Some? && key in user.value && user.value[key].Str? then user.value[key].s else ""
  }

  /** The patch `handleUpdate` sends: the trimmed name, and the photo URL or,
      when that is empty, the placeholder avatar. */
  function UpdatePayload(name: string, photoURL: string): UserRecord {
    map["displayName" := Str(Trim(name)),
        "photoURL" := Str(if photoURL != "" then photoURL else AvatarFallback)]
  }

  /** The patch has exactly the two profile fields; the name carries no
      surrounding white space and is empty only for a blank name; the photo
      is never empty, and is the typed URL whenever one was typed. */
  lemma UpdatePayloadShape(name: string, photoURL: string)
    ensures var r := UpdatePayload(name, photoURL);
      && r.Keys == {"displayName", "photoURL"}
      && r["displayName"].Str? && r["photoURL"].Str?
      && (var n := r["displayName"].s; n == [] || (!IsSpace(n[0]) && !IsSpace(n[|n| - 1])))
      && (r["displayName"].s == [] <==> IsBlank(name))
      && r["photoURL"].s != ""
      && (photoURL != "" ==> r["photoURL"].s == photoURL)
      && (photoURL == "" ==> r["photoURL"].s == AvatarFallback)
  {
    PayloadFields(name, photoURL);
    var r := UpdatePayload(name, photoURL);
    var n := Trim(name);
    assert r["displayName"].s == n;
    TrimmedName(name);
    assert |AvatarFallback| > 0;
  }

  /** The trimmed name has no white space at its ends and is empty exactly
      for a blank name. */
  lemma TrimmedName(name: string)
    ensures var n := Trim(name);
      && (n == [] || (!IsSpace(n[0]) && !IsSpace(n[|n| - 1])))
      && (n == [] <==> IsBlank(name))
  {
    BlankIffTrimsToEmpty(name);
  }

  /** The patch's keys and the value under each. */
  lemma PayloadFields(name: string, photoURL: string)
    ensures var r := UpdatePayload(name, photoURL);
      && r.Keys == {"displayName", "photoURL"}
      && r["displayName"] == Str(Trim(name))
      && r["photoURL"] == Str(if photoURL != "" then photoURL else AvatarFallback)
  {
  }

  /** After a successful update the user keeps every property the patch
      does not name, and shows the trimmed name and a non-empty photo. */
  lemma UpdateKeepsOtherFields(user: UserRecord, name: string, photoURL: string, key: string)
    requires key != "displayName" && key != "photoURL"
    ensures var u := Merge(Some(user), UpdatePayload(name, photoURL));
      && (key in u <==> key in user)
      && (key in u ==> u[key] == user[key])
      && u["displayName"] == Str(Trim(name))
      && u["photoURL"].Str? && u["photoURL"].s != ""
  {
    UpdatePayloadShape(name, photoURL);
    MergeFields(Some(user), UpdatePayload(name, photoURL));
  }

  /** `message.includes("Error")`: the message is styled as an error. */
  predicate IsErrorMessage(message: string) {
    Includes(message, "Error")
  }

  /** A text without a capital 'E' cannot contain "Error". */
  lemma NoCapitalENoError(message: string)
    requires forall k :: 0 <= k < |message| ==> message[k] != 'E'
    ensures !IsErrorMessage(message)
  {
    forall i ensures !OccursAt(message, "Error", i) {
      if 0 <= i && i + 5 <= |message| {
        assert message[i..i + 5][0] == message[i];
      }
    }
  }

  /** The failure message is styled as an error. */
  lemma FailureStyledAsError()
    ensures IsErrorMessage(UpdateFailed)
  {
    assert StartsWith(UpdateFailed, "Error");
  }

  /** The success message is styled as success. */
  lemma SuccessStyledAsSuccess()
    ensures !IsErrorMessage(ProfileUpdated)
  {
    var m := ProfileUpdated;
    assert m == ['P','r','o','f','i','l','e',' ','u','p','d','a','t','e','d',' ','s','u','c','c','e','s','s','f','u','l','l','y','!'];
    NoCapitalENoError(m);
  }

  /** The missing-name message lacks the word "Error", so it is styled as
      success too. */
  lemma MissingNameStyledAsSuccess()
    ensures !IsErrorMessage(NameRequired)
  {
    var m := NameRequired;
    assert m == ['P','l','e','a','s','e',' ','e','n','t','e','r',' ','y','o','u','r',' ','n','a','m','e'];
    NoCapitalENoError(m);
  }

  class Profile {
    var isEditing: bool
    var name: string
    var photoURL: string
    var loading: bool
    var message: string

    /** The edit fields start from the signed-in user's name and photo,
        each "" when missing. */
    constructor (user: Option<UserRecord>)
      ensures name == FieldOrEmpty(user, "displayName") && photoURL == FieldOrEmpty(user, "photoURL")
      ensures !isEditing && !loading && message == ""
    {
      isEditing := false;
      name := FieldOrEmpty(user, "displayName");
      photoURL := FieldOrEmpty(user, "photoURL");
      loading := false;
      message := "";
    }

    /** The "Update Profile" and "Cancel" buttons. */
    method SetEditing(on: bool)
      modifies this`isEditing
      ensures isEditing == on
    {
      isEditing := on;
    }

    /** The name and photo inputs' `onChange`. */
    method Edit(newName: string, newPhotoURL: string)
      modifies this`name, this`photoURL
      ensures name == newName && photoURL == newPhotoURL
    {
      name := newName;
      photoURL := newPhotoURL;
    }

    /** `handleUpdate`, up to the provider's answer. A blank name is refused
        with its message and nothing is called. Otherwise `loading` is set and
        the context's `updateUserProfile` receives the payload, merging it
        into the `user` this page was rendered with. */
    method HandleUpdate(auth: AuthProvider, result: Settled<()>) returns (p: Option<Settled<()>>)
      modifies this`loading, this`message, auth`user, auth`currentUser, auth`calls
      ensures IsBlank(old(name)) ==>
        message == NameRequired && p == None && loading == old(loading)
        && auth.calls == old(auth.calls) && auth.user == old(auth.user)
        && auth.currentUser == old(auth.currentUser)
      ensures !IsBlank(old(name)) ==> loading && p.Some?
      ensures !IsBlank(old(name)) ==> message == old(message)
      ensures !IsBlank(old(name)) && old(auth.currentUser).None? ==>
        p == Some(Rejected(NoUserError)) && auth.calls == old(auth.calls) && auth.user == old(auth.user)
      ensures !IsBlank(old(name)) && old(auth.currentUser).Some? ==>
        p == Some(result) && auth.calls == old(auth.calls) + [UpdateProfile(UpdatePayload(old(name), old(photoURL)))]
      ensures !IsBlank(old(name)) && old(auth.currentUser).Some? && result.Resolved? ==>
        auth.user == Some(Merge(old(auth.user), UpdatePayload(old(name), old(photoURL))))
        && auth.currentUser == Some(Merge(old(auth.currentUser), UpdatePayload(old(name), old(photoURL))))
      ensures old(auth.currentUser).None? || result.Rejected? ==>
        auth.user == old(auth.user) && auth.currentUser == old(auth.currentUser)
    {
      if IsBlank(name) {
        message := NameRequired;
        return None;
      }
      loading := true;
      var payload := UpdatePayload(name, photoURL);
      var captured := auth.user;
      var q := auth.UpdateUserProfile(payload, captured, result);
      p := Some(q);
    }

    /** The timer that clears the message after a refusal or a success. */
    method ClearMessage()
      modifies this`message
      ensures message == ""
    {
      message := "";
    }

    /** `handleUpdate` once the provider has answered: success shows the
        success message and leaves edit mode; failure shows the error message
        and stays. `loading` ends either way. */
    method OnUpdateSettled(p: Settled<()>)
      modifies this`loading, this`message, this`isEditing
      ensures !loading
      ensures p.Resolved? ==> message == ProfileUpdated && !isEditing
      ensures p.Rejected? ==> message == UpdateFailed && isEditing == old(isEditing)
    {
      if p.Resolved? {
        message := ProfileUpdated;
        isEditing := false;
      } else {
        message := UpdateFailed;
      }
      loading := false;
    }
  }
}

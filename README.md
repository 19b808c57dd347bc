# SkillSwap session and page logic in Dafny

This project models the logic of the SkillSwap web application, a React site
where people list and book skill sessions. It covers:

- the authentication context (`AuthProvider`), which holds the React `user`
  and `loading` state and wraps the identity provider's calls;
- the sign-up, sign-in, password-reset and profile pages;
- the skill detail page, with its listing lookup, like toggle and booking form;
- the hero slide background on the home page, with its chain of image
  addresses to fall back through.

Each source file is one module:

| module | source |
|---|---|
| `Text` | the JavaScript string operations the pages rely on: `trim`, the `\s` class, `includes` and `String(n)` |
| `Ui` | toasts and router navigations, as values |
| `Auth` | `src/context/AuthProvider.jsx` |
| `RegisterPage` | `src/components/Register.jsx` |
| `LoginPage` | `src/components/Login.jsx` |
| `ForgotPasswordPage` | `src/components/ForgotPassword.jsx` |
| `ProfilePage` | `src/components/Profile.jsx` |
| `SkillDetailsPage` | `src/components/SkillListingDetails.jsx` |
| `HeroSlide` | `SlideBg` in `src/components/layout/Homepage.jsx` |

State that the source updates step by step is a class with one method per
handler. This covers the context's state cells, each page's form fields,
`loading` flags and messages, and the slide's index.

The identity provider is not modelled. Each of its promises becomes a
`Settled` value (resolved or rejected with a code and a message) that is passed
to the method that awaits it. The provider's own signed-in user
(`auth.currentUser`) is a separate field of the context. A ghost log, `calls`,
records every provider call, so call order and "no call was made" can be
stated.

A handler that awaits the provider is split in two methods: the part up to the
provider's answer, and the part that runs once it settles. `loading` can then
be followed across both steps. Register's two handlers are the exceptions. The
submit handler is one method, with a helper for the part after the guards, and
the Google sign-up handler is one method too.

Pure computations are functions, with lemmas for what the page relies on:

- the password rules;
- the submit guards and their order;
- the error-code messages;
- the redirect target after sign-in;
- the e-mail regular expression;
- the profile patch and its avatar fallback;
- the "Error" styling rule;
- the listing lookup;
- the slide's candidate list.

Behaviours of the code worth noting, each modelled as written:

- `updateUserProfile` checks the provider's signed-in user, not the context's
  `user`.
- `updateUserProfile` merges the patch into the `user` of the render whose
  function the caller holds (`captured`), not into the value current when the
  provider answers.
- A failed `signOutUser` leaves `loading` true. `createUser` and
  `googleSignIn` set `loading` and leave it set until the observer fires,
  whatever the provider answers. A failed operation therefore does not leave
  the state as it was.
- `signInUser` shows its success toast before the provider has answered.

Two further behaviours of the code are stated and proved as written:

- A password field that was never typed in keeps an empty error list. The
  submit guard then lets an empty password through
  (`RegisterPage.UntypedPasswordPassesGuard`).
- The password-reset page checks for blankness on the trimmed e-mail but
  applies the format check to the e-mail as typed
  (`ForgotPasswordPage.PaddedEmailPassesBlankCheckOnly`).

## Model

| member | source | states |
|---|---|---|
| `Text.TrimStart` | src/components/ForgotPassword.jsx:16 | the result is a suffix of the input, only white space was removed, and it does not start with white space |
| `Text.TrimEnd` | src/components/ForgotPassword.jsx:16 | the result is a prefix of the input, only white space was removed, and it does not end with white space |
| `Text.Trim` | src/components/ForgotPassword.jsx:16 | `trim()` returns a stretch of the input with only white space before and after it, leaves no white space at either end, and leaves a string with no white space at its ends unchanged |
| `Text.AllSpaceTrimsToEmpty` | src/components/ForgotPassword.jsx:16 | a string made only of white space trims to nothing |
| `Text.BlankIffTrimsToEmpty` | src/components/ForgotPassword.jsx:16 | `s.trim()` is empty exactly when every character of `s` is white space, so the blank checks can be read either way |
| `Text.Includes` | src/components/Profile.jsx:55 | `includes` is true exactly when the text occurs at some position |
| `Text.NatToString` | src/components/SkillListingDetails.jsx:25 | `String(n)` of a natural number is a non-empty string of digits, with a leading '0' only for zero and one digit exactly below ten |
| `Text.NatToStringValue` | src/components/SkillListingDetails.jsx:25 | the digits `String(n)` writes, read back as a decimal number, are `n` |
| `Text.IntToString` | src/components/SkillListingDetails.jsx:25 | `String(n)` of an integer is non-empty and starts with '-' exactly for negatives |
| `Text.IntToStringInjective` | src/components/SkillListingDetails.jsx:25 | distinct integers are written as distinct strings |
| `Auth.Merge` | src/context/AuthProvider.jsx:22 | `{ ...base, ...updates }`; its contract is `MergeFields`, with `MergeIdempotent` and `MergeOntoNothing` |
| `Auth.MergeFields` | src/context/AuthProvider.jsx:22 | `{ ...user, ...updates }`: patched keys take the patch's value; every other key is present and keeps its value exactly when it was in the base; a `null` base contributes nothing |
| `Auth.MergeIdempotent` | src/context/AuthProvider.jsx:21-23 | applying the same profile patch twice gives the same user as applying it once |
| `Auth.MergeOntoNothing` | src/context/AuthProvider.jsx:22 | patching a `null` user yields the patch alone |
| `Auth.MergeKeepsUnpatchedFields` | src/context/AuthProvider.jsx:21-23 | renaming `{displayName: "Old", photoURL: "p"}` to "New" keeps the photo |
| `Auth.AuthProvider.constructor` | src/context/AuthProvider.jsx:11-12 | the context starts with `user` null and `loading` true, before any provider call |
| `Auth.AuthProvider.OnAuthStateChanged` | src/context/AuthProvider.jsx:52-57 | each observer notification sets `user` to exactly the delivered value, possibly null, and ends `loading`, so the last one wins |
| `Auth.AuthProvider.CreateUser` | src/context/AuthProvider.jsx:14-17 | sets `loading`, makes exactly one account-creation call with the given credentials, and does not touch `user` |
| `Auth.AuthProvider.UpdateUserProfile` | src/context/AuthProvider.jsx:19-26 | with no provider user: rejects with 'No user logged in', makes no call and changes nothing; otherwise one profile call, and on success `user` is the captured user merged with the patch; failure changes no state; `loading` is never touched |
| `Auth.AuthProvider.SignInUser` | src/context/AuthProvider.jsx:28-31 | raises the success toast, makes one password sign-in call, and changes neither `user` nor `loading` |
| `Auth.AuthProvider.GoogleSignIn` | src/context/AuthProvider.jsx:38-41 | sets `loading`, opens one popup, and does not touch `user` |
| `Auth.AuthProvider.SignInWithGoogle` | src/context/AuthProvider.jsx:42-44 | has exactly the effect and result of `googleSignIn` |
| `Auth.AuthProvider.SignOutUser` | src/context/AuthProvider.jsx:45-51 | one sign-out call; on success `user` is null and `loading` false; on failure `user` is kept and `loading` stays true |
| `Auth.SignOutWhenAnonymous` | src/context/AuthProvider.jsx:45-57 | signing out with nobody signed in, around `null` notifications, ends with `user` null, `loading` false and exactly one provider call |
| `RegisterPage.ValidatePassword` | src/components/Register.jsx:23-35 | `validatePassword`; its contract is `ValidatePasswordRules` and `ValidatePasswordEmptyIff` |
| `RegisterPage.ValidatePasswordRules` | src/components/Register.jsx:23-35 | at most three messages, each present exactly when its rule (six characters, an ASCII capital, an ASCII small letter) is broken, always in rule order |
| `RegisterPage.ValidatePasswordEmptyIff` | src/components/Register.jsx:23-35 | the list is empty exactly when the password has six characters, a capital and a small letter |
| `RegisterPage.ValidatePasswordExamples` | src/components/Register.jsx:23-35 | "Ab1234" passes; "abc" gets the length and capital messages, in that order |
| `RegisterPage.WithField` | src/components/Register.jsx:40 | the edited field takes the typed value and every other field keeps its own |
| `RegisterPage.ErrorsFor` | src/components/Register.jsx:43-48 | the error list the form keeps for a stored password: none for an empty one, otherwise the validation; it is the `Register` class invariant, and `UntypedPasswordPassesGuard` and `SubmittedPasswordMeetsRules` state its consequences |
| `RegisterPage.SubmitCheck` | src/components/Register.jsx:63-78 | the submission passes exactly when name, e-mail and photo URL are not blank and the stored error list is empty; each message is reported exactly when its own guard fails and every guard before it (name, e-mail, photo, password, in that order) passes |
| `RegisterPage.SubmittedPasswordMeetsRules` | src/components/Register.jsx:42-78 | with the error list kept in step with the password, a password that gets through meets every rule or is empty |
| `RegisterPage.EmptyPasswordBreaksEveryRule` | src/components/Register.jsx:23-35 | the empty password gets all three messages, in rule order |
| `RegisterPage.UntypedPasswordPassesGuard` | src/components/Register.jsx:43-78 | an empty password passes the guards although it breaks all three rules |
| `RegisterPage.RegisterErrorMessage` | src/components/Register.jsx:104-113 | the three known codes map to their texts; any other error shows its own message, or the default text when that is empty; never an empty message |
| `RegisterPage.ProfilePatch` | src/components/Register.jsx:86-89 | the `{ displayName, photoURL }` patch sent after the account exists; its contract is `RegisteredUserShowsForm` |
| `RegisterPage.RegisteredUserShowsForm` | src/components/Register.jsx:86-89 | after both provider calls succeed, the user shows the name and photo URL as typed, untrimmed, and keeps every other property the captured `user` had; in the usual sign-up that `user` is `null`, so the result holds only the two patched fields, and a fuller record the observer delivered earlier is replaced |
| `RegisterPage.Register.constructor` | src/components/Register.jsx:11-20 | empty form, no password errors, no toast, not loading |
| `RegisterPage.Register.HandleInputChange` | src/components/Register.jsx:38-50 | only the edited field changes; a password edit re-validates, or clears the list when empty; other edits keep the list, so the list stays that of the stored password |
| `RegisterPage.Register.HandleRegister` | src/components/Register.jsx:59-117 | a failing guard shows its message and changes nothing else, making no provider call; otherwise account creation, then the profile patch; the form is reset and "/" reached only when both succeed; a failure shows the mapped message and keeps the form; a failed account creation leaves `user` and the provider's signed-in user as they were |
| `RegisterPage.Register.Submit` | src/components/Register.jsx:80-116 | the provider calls are account creation then profile patch, the second only after the first succeeds; success merges the patch into `user` and resets the form; a failed account creation leaves `user` and the provider's signed-in user as they were; `loading` ends false |
| `RegisterPage.Register.HideToast` | src/components/Register.jsx:55 | the toast timer hides the toast |
| `RegisterPage.Register.HandleGoogleSignUp` | src/components/Register.jsx:120-136 | one popup; success toasts, signs the returned user in with the provider and goes to "/"; failure shows the error's message or the default text and leaves the provider's signed-in user as it was; `loading` ends false |
| `LoginPage.RedirectTarget` | src/components/Login.jsx:28 | the target is never empty; it is the recorded `from.pathname` when that is present and non-empty, and "/" otherwise |
| `LoginPage.NoOriginLandsHome` | src/components/Login.jsx:49 | with no recorded origin a sign-in lands on "/" |
| `LoginPage.LoginErrorMessage` | src/components/Login.jsx:32-38 | "Email not found" exactly for user-not-found, "Incorrect password" exactly for wrong-password, the generic text otherwise |
| `LoginPage.GoogleErrorMessage` | src/components/Login.jsx:53-57 | the cancelled text exactly for a closed popup, the generic text otherwise |
| `LoginPage.ForgotPasswordLink` | src/components/Login.jsx:62-65 | goes to "/forgot-password" carrying the typed e-mail in the navigation state |
| `LoginPage.Login.constructor` | src/components/Login.jsx:13-14 | empty e-mail, not loading |
| `LoginPage.Login.SetEmail` | src/components/Login.jsx:86 | the input stores the typed e-mail |
| `LoginPage.Login.HandleLogin` | src/components/Login.jsx:16-22 | `loading` set, one password sign-in with the page's e-mail (the controlled input's value) and the submitted password, the context's `user` and `loading` untouched; the provider's signed-in user becomes the returned user on success and is kept on failure |
| `LoginPage.Login.OnLoginSettled` | src/components/Login.jsx:23-40 | success clears the e-mail and navigates to the redirect target; failure shows the mapped message and does not navigate; `loading` ends either way |
| `LoginPage.Login.HandleGoogleSignIn` | src/components/Login.jsx:43-45 | `loading` set on the page and in the context, one popup, the context's `user` untouched; the provider's signed-in user becomes the returned user on success and is kept on failure |
| `LoginPage.Login.OnGoogleSettled` | src/components/Login.jsx:46-59 | success navigates to the redirect target; failure shows the mapped message; `loading` ends |
| `LoginPage.Login.HandleForgotPasswordClick` | src/components/Login.jsx:62-65 | the click navigates with the current e-mail |
| `ForgotPasswordPage.InitialEmail` | src/components/ForgotPassword.jsx:10 | the handed-over e-mail when there is one, "" otherwise |
| `ForgotPasswordPage.HandOverKeepsEmail` | src/components/ForgotPassword.jsx:10 | the e-mail typed on the sign-in page arrives unchanged on the reset page |
| `ForgotPasswordPage.MatchesEmailRegex` | src/components/ForgotPassword.jsx:22 | `^[^\s@]+@[^\s@]+\.[^\s@]+$`; its contract is `EmailRegexIff`, both directions of `RegexGivesShape` and `ShapeGivesRegex` |
| `ForgotPasswordPage.RegexGivesShape` | src/components/ForgotPassword.jsx:22 | a match of `^[^\s@]+@[^\s@]+\.[^\s@]+$` has no white space, exactly one '@' not at the start, and a '.' strictly inside the part after it |
| `ForgotPasswordPage.ShapeGivesRegex` | src/components/ForgotPassword.jsx:22 | every string of that shape matches the expression |
| `ForgotPasswordPage.EmailRegexIff` | src/components/ForgotPassword.jsx:22-23 | the format check accepts exactly the strings of that shape |
| `ForgotPasswordPage.PaddedEmailPassesBlankCheckOnly` | src/components/ForgotPassword.jsx:16-26 | an e-mail holding both white space and other characters passes the blank check and is refused by the format check |
| `ForgotPasswordPage.ForgotPassword.constructor` | src/components/ForgotPassword.jsx:10-11 | the page opens with the handed-over e-mail, not loading |
| `ForgotPasswordPage.ForgotPassword.SetEmail` | src/components/ForgotPassword.jsx:81 | the input stores the typed e-mail |
| `ForgotPasswordPage.ForgotPassword.HandleResetPassword` | src/components/ForgotPassword.jsx:13-28 | a blank e-mail is refused first, then a malformed one, each with its message and `loading` untouched; a well-formed one sets `loading` |
| `ForgotPasswordPage.ForgotPassword.OnResetTimer` | src/components/ForgotPassword.jsx:30-42 | opens the mail site, shows the notice, clears `loading`, and returns to "/login" |
| `ProfilePage.FieldOrEmpty` | src/components/Profile.jsx:10-11 | the user's display name or photo when it is a string, "" otherwise |
| `ProfilePage.UpdatePayload` | src/components/Profile.jsx:24-27 | the patch `handleUpdate` sends; its contract is `UpdatePayloadShape`, with `UpdateKeepsOtherFields` for the merge |
| `ProfilePage.UpdatePayloadShape` | src/components/Profile.jsx:24-27 | the patch has exactly the two profile fields; the name is trimmed and empty only for an all-white-space name; the photo is the typed URL, or the placeholder when none was typed, and never empty |
| `ProfilePage.UpdateKeepsOtherFields` | src/components/Profile.jsx:24-27 | after a successful update every other property of the user is kept, the name is the trimmed one and the photo is not empty |
| `ProfilePage.IsErrorMessage` | src/components/Profile.jsx:55 | `message.includes("Error")`; its contract is `Text.Includes`, and `NoCapitalENoError` and the three message lemmas apply it |
| `ProfilePage.NoCapitalENoError` | src/components/Profile.jsx:55 | a message without a capital 'E' is never styled as an error |
| `ProfilePage.FailureStyledAsError` | src/components/Profile.jsx:33 | the failure message is styled as an error |
| `ProfilePage.SuccessStyledAsSuccess` | src/components/Profile.jsx:28 | the success message is styled as success |
| `ProfilePage.MissingNameStyledAsSuccess` | src/components/Profile.jsx:18 | the missing-name refusal is also styled as success, with the check mark |
| `ProfilePage.Profile.constructor` | src/components/Profile.jsx:9-13 | the fields start from the user's name and photo, not editing, not loading, no message |
| `ProfilePage.Profile.SetEditing` | src/components/Profile.jsx:106 | the edit buttons set or clear edit mode |
| `ProfilePage.Profile.Edit` | src/components/Profile.jsx:145-162 | the inputs store the typed name and photo URL |
| `ProfilePage.Profile.HandleUpdate` | src/components/Profile.jsx:15-27 | a blank name is refused with its message and no provider call; otherwise `loading` is set and the context's update receives the payload; on success both the page's `user` and the provider's signed-in user have it merged in; a rejected update, or one with nobody signed in, leaves both as they were |
| `ProfilePage.Profile.ClearMessage` | src/components/Profile.jsx:19 | the timer clears the message |
| `ProfilePage.Profile.OnUpdateSettled` | src/components/Profile.jsx:28-36 | success shows the success message and leaves edit mode; failure shows the error message and stays; `loading` ends |
| `SkillDetailsPage.KeyString` | src/components/SkillListingDetails.jsx:25 | `String(skillId)`: a string id is itself; a number is written in decimal, starting with '-' exactly when negative; a missing id is "undefined" |
| `SkillDetailsPage.Matches` | src/components/SkillListingDetails.jsx:25 | `String(s.skillId) === String(id)`; its contract is `KeyString`, with `NumberAndTextIdsAgree`, `RouteMatchesOneNumber` and `PaddedIdMissesNumericIds` |
| `SkillDetailsPage.FirstMatch` | src/components/SkillListingDetails.jsx:25 | the search stops at a matching listing with none before it, or at the end when none matches |
| `SkillDetailsPage.FindSkill` | src/components/SkillListingDetails.jsx:25 | `data.find(...)`; its contract is `FindSkillIsFirstMatch` and `EarlierDuplicateWins` |
| `SkillDetailsPage.FindSkillIsFirstMatch` | src/components/SkillListingDetails.jsx:25 | the lookup finds nothing exactly when no listing matches; what it finds matches and is the first that does |
| `SkillDetailsPage.EarlierDuplicateWins` | src/components/SkillListingDetails.jsx:25 | of two listings with the same id, the earlier is found |
| `SkillDetailsPage.NumberAndTextIdsAgree` | src/components/SkillListingDetails.jsx:25 | a numeric id and the same id written as text are both found by that text |
| `SkillDetailsPage.RouteMatchesOneNumber` | src/components/SkillListingDetails.jsx:25 | a route id matches at most one numeric id, and for a non-negative one the route id read as a decimal number is that id |
| `SkillDetailsPage.PaddedIdMissesNumericIds` | src/components/SkillListingDetails.jsx:25 | a route id with a leading zero, such as "07", finds no numeric id |
| `SkillDetailsPage.SkillListingDetails.constructor` | src/components/SkillListingDetails.jsx:9-15 | loading, nothing shown, no message, not liked, empty booking |
| `SkillDetailsPage.SkillListingDetails.LoadSkill` | src/components/SkillListingDetails.jsx:18-38 | a match is shown; a failed request or no match sets the failure message and keeps the earlier listing (null at first); `loading` ends either way |
| `SkillDetailsPage.SkillListingDetails.ToggleLike` | src/components/SkillListingDetails.jsx:41-45 | the like flips and the message follows the value before the click |
| `SkillDetailsPage.SkillListingDetails.ClearToast` | src/components/SkillListingDetails.jsx:44 | the timer clears the message |
| `SkillDetailsPage.SkillListingDetails.HandleBookingSubmit` | src/components/SkillListingDetails.jsx:48-58 | a blank name or e-mail is refused and the form kept; otherwise the confirmation is shown and both fields emptied |
| `SkillDetailsPage.SkillListingDetails.SetBookingName` | src/components/SkillListingDetails.jsx:194 | editing the name keeps the e-mail |
| `SkillDetailsPage.SkillListingDetails.SetBookingEmail` | src/components/SkillListingDetails.jsx:208 | editing the e-mail keeps the name |
| `SkillDetailsPage.LikeTwice` | src/components/SkillListingDetails.jsx:41-45 | two clicks on the heart restore the like, and the two messages are opposite, the first chosen by the starting value |
| `HeroSlide.StripScheme` | src/components/layout/Homepage.jsx:26 | a leading "https://" or "http://" is removed, and nothing else is |
| `HeroSlide.StripSchemeRemovesOneScheme` | src/components/layout/Homepage.jsx:26 | whatever follows the scheme survives intact, even a second scheme |
| `HeroSlide.HostPath` | src/components/layout/Homepage.jsx:26 | an absent URL stays absent; a present one loses its scheme |
| `HeroSlide.Proxy` | src/components/layout/Homepage.jsx:27 | the image-proxy address; its contract is `ProxyShape` |
| `HeroSlide.ProxyShape` | src/components/layout/Homepage.jsx:27 | the proxy address is the fixed prefix, the URL without scheme (or "undefined"), then the fixed size and format suffix |
| `HeroSlide.KeepTruthy` | src/components/layout/Homepage.jsx:29 | `filter(Boolean)` keeps every non-empty string of its input, and no empty or absent entry or anything not in its input |
| `HeroSlide.KeepTruthyAppend` | src/components/layout/Homepage.jsx:29 | filtering distributes over concatenation, so the order is kept |
| `HeroSlide.KeepTruthyOfThree` | src/components/layout/Homepage.jsx:29 | filtering a first value and two non-empty strings keeps the two, after the first when it is a non-empty string |
| `HeroSlide.TryOrder` | src/components/layout/Homepage.jsx:29 | `[url, proxy, FALLBACK].filter(Boolean)`; its contract is `TryOrderShape` |
| `HeroSlide.TryOrderShape` | src/components/layout/Homepage.jsx:22-29 | the candidates are the URL when it is a non-empty string, the proxy address, then the fallback: two or three, all non-empty, always ending with the fallback |
| `HeroSlide.NextIndex` | src/components/layout/Homepage.jsx:39 | the index after a load error; its contract is `NextIndexInRange`, with `IndexAfterIsCapped` for a run of errors |
| `HeroSlide.NextIndexInRange` | src/components/layout/Homepage.jsx:38-40 | an error advances the index by one, or keeps it at the last candidate, never leaving the list |
| `HeroSlide.IndexAfterIsCapped` | src/components/layout/Homepage.jsx:38-40 | after n errors the index is n, capped at the last candidate |
| `HeroSlide.SlideBg.constructor` | src/components/layout/Homepage.jsx:29-31 | the slide starts at index 0 of its candidate list |
| `HeroSlide.SlideBg.Current` | src/components/layout/Homepage.jsx:31 | the shown address is always one of the candidates and never empty |
| `HeroSlide.SlideBg.OnError` | src/components/layout/Homepage.jsx:38-40 | a load error moves to the next candidate if there is one, and the index stays in range |
| `HeroSlide.BothFailShowsFallback` | src/components/layout/Homepage.jsx:22-40 | a slide with its own URL shows that URL, then the proxy address, then the fallback, and stays on the fallback after a further error |

## Left out

- The identity provider (account creation, password and popup sign-in, profile update, sign-out, the observer subscription) is outside the model. Its answers are inputs, and its documented effect on `auth.currentUser` is written out in the context's methods.
- Auth.AuthProvider.UpdateUserProfile: the provider's `updateProfile` applies only `displayName` and `photoURL`; the model applies the whole patch to `currentUser`. Both callers send exactly those two fields.
- Toasts, console output, `window.open` and `navigate` are side effects. They are returned or stored as values.
- Timers are not modelled as delays. A timer's callback is a separate method: `OnResetTimer`, `ClearToast`, `HideToast`, `ClearMessage`. Three delays before a navigation are folded into the navigation the handler returns:
  - Register's 1.5 seconds after a successful sign-up, in `Submit`;
  - Register's 1.5 seconds after a Google sign-up, in `HandleGoogleSignUp`;
  - the reset page's 2 seconds before "/login", in `OnResetTimer`.
- RegisterPage.Register.HandleRegister, RegisterPage.Register.Submit and RegisterPage.Register.HandleGoogleSignUp: each runs to the provider's answer in one step, so the page's `loading == true` while the provider call is in flight is not observable in the model; only its final value, false, is stated.
- The interleaving of promises is not modelled. Each awaited call is a start step and a settle step, and which settles first is left to the caller.
- The request for `/skillListing.json` is network I/O. The listing data, or its absence, is passed to `LoadSkill`. A `skillId` that is a fractional number, `null` or a boolean (`String(null)` is "null") is not represented.
- SkillDetailsPage.KeyString: numeric ids are unbounded integers written in plain decimal. JavaScript numbers lose integer precision above 2^53, and `String(n)` switches to exponent form from 1e21 ("1e+21"); neither is modelled.
- The rating and price display, Navbar, Footer, membership and instructor sections, the route table and the private-route guard are display or router configuration. The guard's own source is not part of this model.
- The image `onError` swaps in Navbar and Profile are DOM updates and are not modelled.
- The DOM form reset `e.target.reset()` in the sign-in handler only clears uncontrolled inputs. The controlled e-mail field is cleared by the model.
- The browser's `required` attribute on inputs is left out. It stops an empty form before the handlers run, and the handlers' own checks are modelled as written.
- RegisterPage.ValidatePasswordRules: the length is counted in Unicode code points, while `pass.length` counts UTF-16 code units. A password with characters outside the Basic Multilingual Plane can differ.
- User records hold strings, booleans or `null` values. Other JSON values are not represented.
- ProfilePage.FieldOrEmpty: `displayName` and `photoURL` are taken to be strings or `null`. For a boolean property `user?.displayName || ""` would yield the boolean itself, while the model yields "".
- HeroSlide.SlideBg.constructor: the candidate list is fixed for the slide's lifetime. A change of the `url` prop without remounting is not modelled.

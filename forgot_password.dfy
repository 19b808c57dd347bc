/** The password-reset page: the e-mail handed over from the sign-in page,
    the blank check, the e-mail format check `/^[^\s@]+@[^\s@]+\.[^\s@]+$/`,
    and the `loading` flag around the hand-off to the mail site. */
module ForgotPasswordPage {
  import opened Text
  import opened Ui
  import LoginPage

  const EmailRequired := "Please enter your email address"
  const EmailMalformed := "Please enter a valid email address"
  const MailOpened := "Opening Gmail. Check your email for password reset link."
  const MailSite := "https://mail.google.com"
  const LoginPath := "/login"

  /** `location.state?.email || ''`. */
  function InitialEmail(state: Option<LocState>): (email: string)
    ensures email == "" || (state.Some? && state.value.email == Some(email))
    ensures state.Some? && state.value.email.Some? ==> email == state.value.email.value
  {
    if state.Some? && state.value.email.Some? then state.value.email.value else ""
  }

  /** The sign-in page's "Forgot Password?" link hands over the typed e-mail
      unchanged. */
  lemma HandOverKeepsEmail(email: string)
    ensures InitialEmail(LoginPage.ForgotPasswordLink(email).state) == email
  {
  }

  /** `[^\s@]`. */
  predicate PlainChar(c: char) {
    !IsSpace(c) && c != '@'
  }

  /** `[^\s@]+`. */
  predicate PlainRun(s: string) {
    |s| > 0 && forall k :: 0 <= k < |s| ==> PlainChar(s[k])
  }

  /** The regular expression read as it is written: a plain run, '@', a plain
      run, '.', a plain run, filling the whole string. */
  predicate MatchesEmailRegex(s: string) {
    exists i, j :: 0 < i && i + 1 < j < |s| - 1 && s[i] == '@' && s[j] == '.'
      && PlainRun(s[..i]) && PlainRun(s[i + 1..j]) && PlainRun(s[j + 1..])
  }

  /** The same set of strings described in words: no white space, exactly one
      '@' with something before it, and a '.' after the '@' that is neither
      the first nor the last character of the part after the '@'. */
  ghost predicate EmailShape(s: string) {
    (forall k :: 0 <= k < |s| ==> !IsSpace(s[k]))
    && exists i :: 0 < i < |s| && s[i] == '@'
         && (forall k :: 0 <= k < |s| && k != i ==> s[k] != '@')
         && (exists j :: i + 1 < j < |s| - 1 && s[j] == '.')
  }

  lemma RegexGivesShape(s: string)
    requires MatchesEmailRegex(s)
    ensures EmailShape(s)
  {
    var i, j :| 0 < i && i + 1 < j < |s| - 1 && s[i] == '@' && s[j] == '.'
      && PlainRun(s[..i]) && PlainRun(s[i + 1..j]) && PlainRun(s[j + 1..]);
    forall k | 0 <= k < |s| ensures !IsSpace(s[k]) && (k != i ==> s[k] != '@') {
      if k < i {
        assert s[k] == s[..i][k];
      } else if i < k < j {
        assert s[k] == s[i + 1..j][k - i - 1];
      } else if j < k {
        assert s[k] == s[j + 1..][k - j - 1];
      }
    }
  }

  lemma ShapeGivesRegex(s: string)
    requires EmailShape(s)
    ensures MatchesEmailRegex(s)
  {
    var i :| 0 < i < |s| && s[i] == '@'
      && (forall k :: 0 <= k < |s| && k != i ==> s[k] != '@')
      && (exists j :: i + 1 < j < |s| - 1 && s[j] == '.');
    var j :| i + 1 < j < |s| - 1 && s[j] == '.';
    assert PlainRun(s[..i]) by {
      forall k | 0 <= k < i ensures PlainChar(s[..i][k]) {
        assert s[..i][k] == s[k];
      }
    }
    assert PlainRun(s[i + 1..j]) by {
      forall k | i + 1 <= k < j ensures PlainChar(s[k]) {
      }
    }
    assert PlainRun(s[j + 1..]) by {
      forall k | j + 1 <= k < |s| ensures PlainChar(s[k]) {
      }
    }
  }

  /** The format check accepts exactly the strings of that shape. */
  lemma EmailRegexIff(s: string)
    ensures MatchesEmailRegex(s) <==> EmailShape(s)
  {
    if MatchesEmailRegex(s) {
      RegexGivesShape(s);
    }
    if EmailShape(s) {
      ShapeGivesRegex(s);
    }
  }

  /** The blank check runs on the trimmed e-mail but the format check on the
      e-mail as typed: an address with white space around (or in) it that is
      not all white space gets past the first and is refused by the second. */
  lemma PaddedEmailPassesBlankCheckOnly(s: string, k: int, m: int)
    requires 0 <= k < |s| && IsSpace(s[k])
    requires 0 <= m < |s| && !IsSpace(s[m])
    ensures !IsBlank(s) && !MatchesEmailRegex(s)
  {
    BlankIffTrimsToEmpty(s);
    if MatchesEmailRegex(s) {
      RegexGivesShape(s);
    }
  }

  class ForgotPassword {
    var email: string
    var loading: bool

    /** The page opens with the e-mail handed over by the navigation. */
    constructor (state: Option<LocState>)
      ensures email == InitialEmail(state) && !loading
    {
      email := InitialEmail(state);
      loading := false;
    }

    /** The e-mail input's `onChange`. */
    method SetEmail(value: string)
      modifies this`email
      ensures email == value
    {
      email := value;
    }

    /** `handleResetPassword`, up to the timer: a blank e-mail and then a
        malformed one are refused with their messages and leave `loading`
        as it was; a well-formed one sets `loading`. */
    method HandleResetPassword() returns (toast: Option<Toast>)
      modifies this`loading
      ensures IsBlank(email) ==> toast == Some(Toast(Error, EmailRequired)) && loading == old(loading)
      ensures !IsBlank(email) && !MatchesEmailRegex(email) ==>
        toast == Some(Toast(Error, EmailMalformed)) && loading == old(loading)
      ensures !IsBlank(email) && MatchesEmailRegex(email) ==> toast == None && loading
    {
      if IsBlank(email) {
        return Some(Toast(Error, EmailRequired));
      }
      if !MatchesEmailRegex(email) {
        return Some(Toast(Error, EmailMalformed));
      }
      loading := true;
      toast := None;
    }

    /** The timer callback that follows a well-formed request: the mail site
        is opened in a new tab, the notice shown, `loading` cleared, and the
        visitor later sent back to the sign-in page. */
    method OnResetTimer() returns (newTab: string, toast: Toast, nav: Navigation)
      modifies this`loading
      ensures !loading && email == old(email)
      ensures newTab == MailSite && toast == Toast(Success, MailOpened) && nav == GoTo(LoginPath)
    {
      newTab := MailSite;
      toast := Toast(Success, MailOpened);
      loading := false;
      nav := GoTo(LoginPath);
    }
  }
}

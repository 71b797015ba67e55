/** The sign-up page (src/pages/Signup.tsx): its schema, where the
    password confirmation is an object-level refinement reported under
    `confirmPassword`, and the submit handler that sends the new user to
    the sign-in page. zod's e-mail check is the parameter `isEmail`. */
module Signup {
  import opened Wrappers
  import opened Ui
  import Text

  datatype Values = Values(firstName: string, lastName: string, email: string, companyName: string,
                           phone: Option<string>, password: string, confirmPassword: string, terms: bool)

  const DefaultValues := Values("", "", "", "", Some(""), "", "", false)

  const MismatchMessage := "Passwords don't match"

  function NameIssues(v: Values, isEmail: string -> bool): seq<Issue>
  {
    Check(|v.firstName| >= 1, "firstName", "First name is required") +
    Check(|v.lastName| >= 1, "lastName", "Last name is required") +
    Check(|v.email| >= 1, "email", "Email is required") +
    Check(isEmail(v.email), "email", "Invalid email address") +
    Check(|v.companyName| >= 1, "companyName", "Company name is required")
  }

  function SecretIssues(v: Values): seq<Issue>
  {
    Check(Text.Utf16Length(v.password) >= 8, "password", "Password must be at least 8 characters") +
    Check(|v.confirmPassword| >= 1, "confirmPassword", "Confirm your password") +
    Check(v.terms, "terms", "You must accept the terms and conditions")
  }

  /** The fields' issues in declaration order, then the refinement's: a
      failed string or terms check leaves the object dirty, not aborted, so
      the refinement always runs. */
  function Issues(v: Values, isEmail: string -> bool): seq<Issue>
  {
    NameIssues(v, isEmail) + SecretIssues(v) + Check(v.password == v.confirmPassword, "confirmPassword", MismatchMessage)
  }

  lemma {:induction false} NameIssuesEmptyIff(v: Values, isEmail: string -> bool)
    ensures NameIssues(v, isEmail) == [] <==>
              v.firstName != "" && v.lastName != "" && v.email != "" && isEmail(v.email) && v.companyName != ""
  {
    var c1 := Check(|v.firstName| >= 1, "firstName", "First name is required");
    var c2 := Check(|v.lastName| >= 1, "lastName", "Last name is required");
    var c3 := Check(|v.email| >= 1, "email", "Email is required");
    var c4 := Check(isEmail(v.email), "email", "Invalid email address");
    var c5 := Check(|v.companyName| >= 1, "companyName", "Company name is required");
    assert |NameIssues(v, isEmail)| == |c1| + |c2| + |c3| + |c4| + |c5|;
  }

  /** The form submits exactly when the names, the company and a well-formed
      e-mail are given, the terms are accepted, and the password is at least
      8 long in JavaScript's length (UTF-16 code units) and is typed the same
      twice; the phone never matters. */
  lemma IssuesEmptyIff(v: Values, isEmail: string -> bool)
    ensures Issues(v, isEmail) == [] <==>
              v.firstName != "" && v.lastName != "" && v.email != "" && isEmail(v.email) &&
              v.companyName != "" && Text.Utf16Length(v.password) >= 8 && v.terms && v.confirmPassword == v.password
  {
    NameIssuesEmptyIff(v, isEmail);
    var s := SecretIssues(v);
    assert |s| == |Check(Text.Utf16Length(v.password) >= 8, "password", "Password must be at least 8 characters")| +
                  |Check(|v.confirmPassword| >= 1, "confirmPassword", "Confirm your password")| +
                  |Check(v.terms, "terms", "You must accept the terms and conditions")|;
  }

  /** Four emoji outside the Basic Multilingual Plane are a long enough
      password: JavaScript counts each of them twice. */
  lemma EmojiPasswordAccepted(v: Values, isEmail: string -> bool)
    requires v.password == "\U{1F600}\U{1F600}\U{1F600}\U{1F600}"
    ensures Issues(v, isEmail) == [] <==>
              v.firstName != "" && v.lastName != "" && v.email != "" && isEmail(v.email) &&
              v.companyName != "" && v.terms && v.confirmPassword == v.password
  {
    Text.FourEmoji();
    IssuesEmptyIff(v, isEmail);
  }

  lemma PhoneIgnored(v: Values, phone: Option<string>, isEmail: string -> bool)
    ensures Issues(v.(phone := phone), isEmail) == Issues(v, isEmail)
  {
  }

  lemma NameIssuesNotAtConfirmation(v: Values, isEmail: string -> bool)
    ensures FirstError(NameIssues(v, isEmail), "confirmPassword").None?
  {
    var path := "confirmPassword";
    var c1 := Check(|v.firstName| >= 1, "firstName", "First name is required");
    var c2 := Check(|v.lastName| >= 1, "lastName", "Last name is required");
    var c3 := Check(|v.email| >= 1, "email", "Email is required");
    var c4 := Check(isEmail(v.email), "email", "Invalid email address");
    var c5 := Check(|v.companyName| >= 1, "companyName", "Company name is required");
    CheckElsewhere(|v.firstName| >= 1, "firstName", "First name is required", path);
    CheckElsewhere(|v.lastName| >= 1, "lastName", "Last name is required", path);
    CheckElsewhere(|v.email| >= 1, "email", "Email is required", path);
    CheckElsewhere(isEmail(v.email), "email", "Invalid email address", path);
    CheckElsewhere(|v.companyName| >= 1, "companyName", "Company name is required", path);
    FirstErrorAppend(c1, c2, path);
    FirstErrorAppend(c1 + c2, c3, path);
    FirstErrorAppend(c1 + c2 + c3, c4, path);
    FirstErrorAppend(c1 + c2 + c3 + c4, c5, path);
  }

  lemma SecretIssuesNotAtConfirmation(v: Values)
    requires v.confirmPassword != ""
    ensures FirstError(SecretIssues(v), "confirmPassword").None?
  {
    var issues := SecretIssues(v);
    assert issues == Check(Text.Utf16Length(v.password) >= 8, "password", "Password must be at least 8 characters") +
                     Check(v.terms, "terms", "You must accept the terms and conditions");
    forall i | 0 <= i < |issues| ensures issues[i].path != "confirmPassword" {
      assert |issues[i].path| < 15;
    }
  }

  /** A mismatched, non-empty confirmation shows the refinement's message
      under the confirmation field. */
  lemma MismatchShownAtConfirmation(v: Values, isEmail: string -> bool)
    requires v.confirmPassword != "" && v.password != v.confirmPassword
    ensures FirstError(Issues(v, isEmail), "confirmPassword") == Some(MismatchMessage)
  {
    NameIssuesNotAtConfirmation(v, isEmail);
    SecretIssuesNotAtConfirmation(v);
    FirstErrorAppend(NameIssues(v, isEmail), SecretIssues(v), "confirmPassword");
    FirstErrorAppend(NameIssues(v, isEmail) + SecretIssues(v), [Issue("confirmPassword", MismatchMessage)],
                     "confirmPassword");
  }

  /** The blank form asks for a first name and cannot be submitted. */
  lemma DefaultFormInvalid(isEmail: string -> bool)
    ensures FirstError(Issues(DefaultValues, isEmail), "firstName") == Some("First name is required")
    ensures Issues(DefaultValues, isEmail) != []
  {
  }

  const CreatedToast := Toast("Account created successfully", "Welcome to B2B Commerce Nexus!", false)

  class SignupPage {
    var isLoading: bool
    var shownIssues: seq<Issue>
    var toasts: seq<Toast>
    var navigations: seq<Navigation>

    constructor ()
      ensures !isLoading && shownIssues == [] && toasts == [] && navigations == []
    {
      isLoading := false;
      shownIssues := [];
      toasts := [];
      navigations := [];
    }

    /** Invalid values only show their issues; valid ones toast and go to
        the sign-in page, and the button is enabled again. */
    method Submit(v: Values, isEmail: string -> bool)
      modifies this
      ensures Issues(v, isEmail) != [] ==>
                shownIssues == Issues(v, isEmail) && isLoading == old(isLoading) &&
                toasts == old(toasts) && navigations == old(navigations)
      ensures Issues(v, isEmail) == [] ==>
                shownIssues == [] && !isLoading && toasts == old(toasts) + [CreatedToast] &&
                navigations == old(navigations) + [Navigation("/login", false)]
    {
      var issues := Issues(v, isEmail);
      if issues != [] {
        shownIssues := issues;
        return;
      }
      shownIssues := [];
      isLoading := true;
      toasts := toasts + [CreatedToast];
      navigations := navigations + [Navigation("/login", false)];
      isLoading := false;
    }
  }
}

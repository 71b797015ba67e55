/** The support page (src/pages/Support.tsx): the contact form's schema,
    its defaults taken from the signed-in user, and the switch between the
    form and the thank-you panel. zod's e-mail check is `isEmail`. */
module Support {
  import opened Wrappers
  import opened Ui
  import Text
  import AuthContext

  datatype Values = Values(name: string, email: string, subject: string, message: string)

  /** The defaults: the user's full name and e-mail when a user record is
      signed in, empty when the user is falsy; subject and message always
      start empty. A truthy value without the properties renders both names
      as "undefined" in the template literal and falls back to "" for the
      e-mail. */
  function DefaultValues(user: AuthContext.UserValue): (v: Values)
    ensures user.Record? ==> v.name == user.user.firstName + " " + user.user.lastName && v.email == user.user.email
    ensures !user.Truthy() ==> v.name == "" && v.email == ""
    ensures user.NonRecord? && user.truthy ==> v.name == "undefined undefined" && v.email == ""
    ensures v.subject == "" && v.message == ""
  {
    match user
    case Record(u) => Values(u.firstName + " " + u.lastName, if u.email != "" then u.email else "", "", "")
    case NonRecord(truthy) => Values(if truthy then "undefined undefined" else "", "", "", "")
    case Null => Values("", "", "", "")
  }

  function SenderIssues(v: Values, isEmail: string -> bool): seq<Issue>
  {
    Check(|v.name| >= 1, "name", "Name is required") +
    Check(|v.email| >= 1, "email", "Email is required") +
    Check(isEmail(v.email), "email", "Invalid email address")
  }

  function RequestIssues(v: Values): seq<Issue>
  {
    Check(Text.Utf16Length(v.subject) >= 3, "subject", "Subject is required and must be at least 3 characters") +
    Check(Text.Utf16Length(v.message) >= 10, "message", "Message is required and must be at least 10 characters")
  }

  /** The schema's issues in field order. */
  function Issues(v: Values, isEmail: string -> bool): seq<Issue>
  {
    SenderIssues(v, isEmail) + RequestIssues(v)
  }

  /** The form sends exactly a named, well-formed request with a subject of
      3 characters and a message of 10. */
  lemma {:induction false} IssuesEmptyIff(v: Values, isEmail: string -> bool)
    ensures Issues(v, isEmail) == [] <==>
              v.name != "" && v.email != "" && isEmail(v.email) && Text.Utf16Length(v.subject) >= 3 && Text.Utf16Length(v.message) >= 10
  {
    var c1 := Check(|v.name| >= 1, "name", "Name is required");
    var c2 := Check(|v.email| >= 1, "email", "Email is required");
    var c3 := Check(isEmail(v.email), "email", "Invalid email address");
    var c4 := Check(Text.Utf16Length(v.subject) >= 3, "subject", "Subject is required and must be at least 3 characters");
    var c5 := Check(Text.Utf16Length(v.message) >= 10, "message", "Message is required and must be at least 10 characters");
    assert |SenderIssues(v, isEmail)| == |c1| + |c2| + |c3|;
    assert |RequestIssues(v)| == |c4| + |c5|;
  }

  /** A given name shows no issue under the name field. */
  lemma NameAccepted(v: Values, isEmail: string -> bool)
    requires v.name != ""
    ensures FirstError(Issues(v, isEmail), "name").None?
  {
    var sender := SenderIssues(v, isEmail);
    forall i | 0 <= i < |sender| ensures sender[i].path != "name" {
      assert sender[i].path == "email";
    }
    var request := RequestIssues(v);
    forall i | 0 <= i < |request| ensures request[i].path != "name" {
      assert |request[i].path| != 4;
    }
    FirstErrorAppend(sender, request, "name");
  }

  /** A subject shorter than 3 in JavaScript's length (UTF-16 code units)
      shows the subject rule's message. */
  lemma ShortSubjectMessage(v: Values, isEmail: string -> bool)
    requires Text.Utf16Length(v.subject) < 3
    ensures FirstError(Issues(v, isEmail), "subject") == Some("Subject is required and must be at least 3 characters")
  {
    var sender := SenderIssues(v, isEmail);
    forall i | 0 <= i < |sender| ensures sender[i].path != "subject" {
      assert |sender[i].path| != 7;
    }
    var request := RequestIssues(v);
    assert request[0] == Issue("subject", "Subject is required and must be at least 3 characters");
    FirstErrorAppend(sender, request, "subject");
  }

  /** The sender fields never put an issue at the subject. */
  lemma SenderIssuesNotAtSubject(v: Values, isEmail: string -> bool)
    ensures FirstError(SenderIssues(v, isEmail), "subject").None?
  {
    var sender := SenderIssues(v, isEmail);
    forall i | 0 <= i < |sender| ensures sender[i].path != "subject" {
      assert |sender[i].path| != 7;
    }
  }

  /** A subject at least 3 long in JavaScript's length shows no subject issue. */
  lemma SubjectAccepted(v: Values, isEmail: string -> bool)
    requires Text.Utf16Length(v.subject) >= 3
    ensures FirstError(Issues(v, isEmail), "subject").None?
  {
    SenderIssuesNotAtSubject(v, isEmail);
    var message := "Message is required and must be at least 10 characters";
    var request := RequestIssues(v);
    assert request == Check(Text.Utf16Length(v.message) >= 10, "message", message);
    CheckElsewhere(Text.Utf16Length(v.message) >= 10, "message", message, "subject");
    FirstErrorAppend(SenderIssues(v, isEmail), request, "subject");
  }

  /** The rule counts code units, not characters: "😀a", two characters but
      three units, passes it. */
  lemma EmojiSubjectAccepted(v: Values, isEmail: string -> bool)
    requires v.subject == "\U{1F600}a"
    ensures FirstError(Issues(v, isEmail), "subject").None?
  {
    Text.EmojiThenLetter();
    SubjectAccepted(v, isEmail);
  }

  /** A signed-in user's name always passes (it holds at least the space),
      but the defaults are never sendable: the subject is empty. */
  lemma DefaultsNeverValid(user: AuthContext.UserValue, isEmail: string -> bool)
    ensures user.Truthy() ==> FirstError(Issues(DefaultValues(user), isEmail), "name").None?
    ensures FirstError(Issues(DefaultValues(user), isEmail), "subject") ==
            Some("Subject is required and must be at least 3 characters")
    ensures Issues(DefaultValues(user), isEmail) != []
  {
    var v := DefaultValues(user);
    if user.Truthy() {
      NameAccepted(v, isEmail);
    }
    ShortSubjectMessage(v, isEmail);
    IssuesEmptyIff(v, isEmail);
  }

  const SentToast := Toast("Message sent successfully", "We will get back to you as soon as possible.", false)

  class SupportPage {
    var isSubmitted: bool
    var shownIssues: seq<Issue>
    var toasts: seq<Toast>

    constructor ()
      ensures !isSubmitted && shownIssues == [] && toasts == []
    {
      isSubmitted := false;
      shownIssues := [];
      toasts := [];
    }

    /** Invalid values only show their issues; a valid request toasts and
        swaps the form for the thank-you panel. */
    method Submit(v: Values, isEmail: string -> bool)
      modifies this
      ensures Issues(v, isEmail) != [] ==>
                shownIssues == Issues(v, isEmail) && isSubmitted == old(isSubmitted) && toasts == old(toasts)
      ensures Issues(v, isEmail) == [] ==>
                shownIssues == [] && isSubmitted && toasts == old(toasts) + [SentToast]
    {
      var issues := Issues(v, isEmail);
      if issues != [] {
        shownIssues := issues;
        return;
      }
      shownIssues := [];
      toasts := toasts + [SentToast];
      isSubmitted := true;
    }

    /** "Send Another Message" brings the form back. */
    method SendAnother()
      modifies this
      ensures !isSubmitted && shownIssues == old(shownIssues) && toasts == old(toasts)
    {
      isSubmitted := false;
    }
  }
}

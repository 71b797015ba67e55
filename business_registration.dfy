/** The business registration page (src/pages/BusinessRegistration.tsx):
    its schema, with the password confirmation as an object-level
    refinement, the defaults (country India), and the submit handler that
    opens the business dashboard. zod's e-mail check is `isEmail`. */
module BusinessRegistration {
  import opened Wrappers
  import opened Ui
  import Text

  datatype Values = Values(
    companyName: string, businessType: string, registrationNumber: string,
    contactPersonFirstName: string, contactPersonLastName: string, email: string, phone: string,
    address: string, city: string, state: string, postalCode: string, country: string,
    companyDescription: string, password: string, confirmPassword: string, termsAccepted: bool)

  const DefaultValues := Values("", "", "", "", "", "", "", "", "", "", "", "India", "", "", "", false)

  const MismatchMessage := "Passwords don't match"

  function IdentityIssues(v: Values): seq<Issue>
  {
    Check(|v.companyName| >= 1, "companyName", "Company name is required") +
    Check(|v.businessType| >= 1, "businessType", "Business type is required") +
    Check(|v.registrationNumber| >= 1, "registrationNumber", "Registration number is required") +
    Check(|v.contactPersonFirstName| >= 1, "contactPersonFirstName", "First name is required") +
    Check(|v.contactPersonLastName| >= 1, "contactPersonLastName", "Last name is required")
  }

  function ContactIssues(v: Values, isEmail: string -> bool): seq<Issue>
  {
    Check(|v.email| >= 1, "email", "Email is required") +
    Check(isEmail(v.email), "email", "Invalid email address") +
    Check(Text.Utf16Length(v.phone) >= 10, "phone", "Valid phone number is required")
  }

  function CompanyIssues(v: Values, isEmail: string -> bool): seq<Issue>
  {
    IdentityIssues(v) + ContactIssues(v, isEmail)
  }

  function AddressIssues(v: Values): seq<Issue>
  {
    Check(|v.address| >= 1, "address", "Address is required") +
    Check(|v.city| >= 1, "city", "City is required") +
    Check(|v.state| >= 1, "state", "State is required") +
    Check(|v.postalCode| >= 1, "postalCode", "Postal code is required") +
    Check(|v.country| >= 1, "country", "Country is required")
  }

  function AccountIssues(v: Values): seq<Issue>
  {
    Check(Text.Utf16Length(v.companyDescription) >= 20, "companyDescription", "Company description must be at least 20 characters") +
    Check(Text.Utf16Length(v.password) >= 8, "password", "Password must be at least 8 characters") +
    Check(|v.confirmPassword| >= 1, "confirmPassword", "Confirm your password") +
    Check(v.termsAccepted, "termsAccepted", "You must accept the terms and conditions")
  }

  /** The fields' issues in declaration order, then the refinement's, which
      always runs (failed string checks leave the object dirty, not aborted). */
  function Issues(v: Values, isEmail: string -> bool): seq<Issue>
  {
    CompanyIssues(v, isEmail) + AddressIssues(v) + AccountIssues(v) +
    Check(v.password == v.confirmPassword, "confirmPassword", MismatchMessage)
  }

  predicate CompanyComplete(v: Values, isEmail: string -> bool) {
    v.companyName != "" && v.businessType != "" && v.registrationNumber != "" &&
    v.contactPersonFirstName != "" && v.contactPersonLastName != "" &&
    v.email != "" && isEmail(v.email) && Text.Utf16Length(v.phone) >= 10
  }

  predicate AddressComplete(v: Values) {
    v.address != "" && v.city != "" && v.state != "" && v.postalCode != "" && v.country != ""
  }

  lemma {:induction false} IdentityIssuesEmptyIff(v: Values)
    ensures IdentityIssues(v) == [] <==>
              v.companyName != "" && v.businessType != "" && v.registrationNumber != "" &&
              v.contactPersonFirstName != "" && v.contactPersonLastName != ""
  {
    var c1 := Check(|v.companyName| >= 1, "companyName", "Company name is required");
    var c2 := Check(|v.businessType| >= 1, "businessType", "Business type is required");
    var c3 := Check(|v.registrationNumber| >= 1, "registrationNumber", "Registration number is required");
    var c4 := Check(|v.contactPersonFirstName| >= 1, "contactPersonFirstName", "First name is required");
    var c5 := Check(|v.contactPersonLastName| >= 1, "contactPersonLastName", "Last name is required");
    var head := c1 + c2 + c3;
    assert |head| == |c1| + |c2| + |c3|;
    assert IdentityIssues(v) == head + c4 + c5;
  }

  lemma {:induction false} ContactIssuesEmptyIff(v: Values, isEmail: string -> bool)
    ensures ContactIssues(v, isEmail) == [] <==>
              v.email != "" && isEmail(v.email) && Text.Utf16Length(v.phone) >= 10
  {
    var c6 := Check(|v.email| >= 1, "email", "Email is required");
    var c7 := Check(isEmail(v.email), "email", "Invalid email address");
    var c8 := Check(Text.Utf16Length(v.phone) >= 10, "phone", "Valid phone number is required");
    assert |ContactIssues(v, isEmail)| == |c6| + |c7| + |c8|;
  }

  lemma {:induction false} CompanyIssuesEmptyIff(v: Values, isEmail: string -> bool)
    ensures CompanyIssues(v, isEmail) == [] <==> CompanyComplete(v, isEmail)
  {
    IdentityIssuesEmptyIff(v);
    ContactIssuesEmptyIff(v, isEmail);
    assert |CompanyIssues(v, isEmail)| == |IdentityIssues(v)| + |ContactIssues(v, isEmail)|;
  }

  lemma {:induction false} AddressIssuesEmptyIff(v: Values)
    ensures AddressIssues(v) == [] <==> AddressComplete(v)
  {
    var c1 := Check(|v.address| >= 1, "address", "Address is required");
    var c2 := Check(|v.city| >= 1, "city", "City is required");
    var c3 := Check(|v.state| >= 1, "state", "State is required");
    var c4 := Check(|v.postalCode| >= 1, "postalCode", "Postal code is required");
    var c5 := Check(|v.country| >= 1, "country", "Country is required");
    assert |AddressIssues(v)| == |c1| + |c2| + |c3| + |c4| + |c5|;
  }

  lemma {:induction false} AccountIssuesEmptyIff(v: Values)
    ensures AccountIssues(v) == [] <==>
              Text.Utf16Length(v.companyDescription) >= 20 && Text.Utf16Length(v.password) >= 8 && v.confirmPassword != "" && v.termsAccepted
  {
    var c1 := Check(Text.Utf16Length(v.companyDescription) >= 20, "companyDescription",
                    "Company description must be at least 20 characters");
    var c2 := Check(Text.Utf16Length(v.password) >= 8, "password", "Password must be at least 8 characters");
    var c3 := Check(|v.confirmPassword| >= 1, "confirmPassword", "Confirm your password");
    var c4 := Check(v.termsAccepted, "termsAccepted", "You must accept the terms and conditions");
    assert |AccountIssues(v)| == |c1| + |c2| + |c3| + |c4|;
  }

  /** The form submits exactly when every company, contact and address field
      is filled, the phone is at least 10 long, the description 20, the
      password 8 (JavaScript's length, in UTF-16 code units) and is typed the same twice, and the terms are accepted. */
  lemma IssuesEmptyIff(v: Values, isEmail: string -> bool)
    ensures Issues(v, isEmail) == [] <==>
              CompanyComplete(v, isEmail) && AddressComplete(v) &&
              Text.Utf16Length(v.companyDescription) >= 20 && Text.Utf16Length(v.password) >= 8 && v.termsAccepted &&
              v.confirmPassword == v.password
  {
    CompanyIssuesEmptyIff(v, isEmail);
    AddressIssuesEmptyIff(v);
    AccountIssuesEmptyIff(v);
  }

  lemma CompanyIssuesNotAtCountry(v: Values, isEmail: string -> bool)
    ensures FirstError(CompanyIssues(v, isEmail), "country").None?
  {
    var identity := IdentityIssues(v);
    var contact := ContactIssues(v, isEmail);
    forall i | 0 <= i < |identity| ensures identity[i].path != "country" {
      assert |identity[i].path| != 7;
    }
    forall i | 0 <= i < |contact| ensures contact[i].path != "country" {
      assert |contact[i].path| != 7;
    }
    FirstErrorAppend(identity, contact, "country");
  }

  lemma AddressIssuesNotAtCountry(v: Values)
    requires v.country != ""
    ensures FirstError(AddressIssues(v), "country").None?
  {
    var path := "country";
    var c1 := Check(|v.address| >= 1, "address", "Address is required");
    var c2 := Check(|v.city| >= 1, "city", "City is required");
    var c3 := Check(|v.state| >= 1, "state", "State is required");
    var c4 := Check(|v.postalCode| >= 1, "postalCode", "Postal code is required");
    var c5 := Check(|v.country| >= 1, "country", "Country is required");
    CheckElsewhere(|v.address| >= 1, "address", "Address is required", path);
    CheckElsewhere(|v.city| >= 1, "city", "City is required", path);
    CheckElsewhere(|v.state| >= 1, "state", "State is required", path);
    CheckElsewhere(|v.postalCode| >= 1, "postalCode", "Postal code is required", path);
    assert c5 == [];
    FirstErrorAppend(c1, c2, path);
    FirstErrorAppend(c1 + c2, c3, path);
    FirstErrorAppend(c1 + c2 + c3, c4, path);
    FirstErrorAppend(c1 + c2 + c3 + c4, c5, path);
  }

  lemma AccountIssuesNotAtCountry(v: Values)
    ensures FirstError(AccountIssues(v), "country").None?
  {
    var path := "country";
    var c1 := Check(Text.Utf16Length(v.companyDescription) >= 20, "companyDescription",
                    "Company description must be at least 20 characters");
    var c2 := Check(Text.Utf16Length(v.password) >= 8, "password", "Password must be at least 8 characters");
    var c3 := Check(|v.confirmPassword| >= 1, "confirmPassword", "Confirm your password");
    var c4 := Check(v.termsAccepted, "termsAccepted", "You must accept the terms and conditions");
    CheckElsewhere(Text.Utf16Length(v.companyDescription) >= 20, "companyDescription",
                   "Company description must be at least 20 characters", path);
    CheckElsewhere(Text.Utf16Length(v.password) >= 8, "password", "Password must be at least 8 characters", path);
    CheckElsewhere(|v.confirmPassword| >= 1, "confirmPassword", "Confirm your password", path);
    CheckElsewhere(v.termsAccepted, "termsAccepted", "You must accept the terms and conditions", path);
    FirstErrorAppend(c1, c2, path);
    FirstErrorAppend(c1 + c2, c3, path);
    FirstErrorAppend(c1 + c2 + c3, c4, path);
  }

  /** A filled-in country never shows an issue, whatever else is wrong. */
  lemma CountryAccepted(v: Values, isEmail: string -> bool)
    requires v.country != ""
    ensures FirstError(Issues(v, isEmail), "country").None?
  {
    var company := CompanyIssues(v, isEmail);
    var address := AddressIssues(v);
    var account := AccountIssues(v);
    CompanyIssuesNotAtCountry(v, isEmail);
    AddressIssuesNotAtCountry(v);
    AccountIssuesNotAtCountry(v);
    CheckElsewhere(v.password == v.confirmPassword, "confirmPassword", MismatchMessage, "country");
    FirstErrorAppend(company, address, "country");
    FirstErrorAppend(company + address, account, "country");
    FirstErrorAppend(company + address + account,
                     Check(v.password == v.confirmPassword, "confirmPassword", MismatchMessage), "country");
  }

  /** The default country is India, which satisfies its rule; the blank form
      as a whole is still invalid. */
  lemma DefaultCountryAccepted(isEmail: string -> bool)
    ensures DefaultValues.country == "India"
    ensures FirstError(Issues(DefaultValues, isEmail), "country").None?
    ensures Issues(DefaultValues, isEmail) != []
  {
    CountryAccepted(DefaultValues, isEmail);
    IssuesEmptyIff(DefaultValues, isEmail);
  }

  const CreatedToast := Toast("Business account created successfully",
                              "Welcome to the Benz Packaging Solutions B2B platform!", false)

  class RegistrationPage {
    var isLoading: bool
    var shownIssues: seq<Issue>
    var toasts: seq<Toast>
    var navigations: seq<Navigation>

    constructor ()
      ensures !isLoading && shownIssues == [] && toasts == [] && navigations == []
    {
      isLoading := false;
      shownIssues := [];
      toasts := [];
      navigations := [];
    }

    /** Invalid values only show their issues; valid ones toast and open the
        business dashboard, and the button is enabled again. */
    method Submit(v: Values, isEmail: string -> bool)
      modifies this
      ensures Issues(v, isEmail) != [] ==>
                shownIssues == Issues(v, isEmail) && isLoading == old(isLoading) &&
                toasts == old(toasts) && navigations == old(navigations)
      ensures Issues(v, isEmail) == [] ==>
                shownIssues == [] && !isLoading && toasts == old(toasts) + [CreatedToast] &&
                navigations == old(navigations) + [Navigation("/business/dashboard", false)]
    {
      var issues := Issues(v, isEmail);
      if issues != [] {
        shownIssues := issues;
        return;
      }
      shownIssues := [];
      isLoading := true;
      toasts := toasts + [CreatedToast];
      navigations := navigations + [Navigation("/business/dashboard", false)];
      isLoading := false;
    }
  }
}

/**
 * The zod schemas of the forms: each field's checks run in their declared
 * order and every failing check adds its message; an object collects the
 * issues of its keys in shape order.
 */
module Schemas {
  import opened Wrappers
  import opened Text

  /** A validation issue: the key it is reported at (empty for the whole object) and its message. */
  datatype Issue = Issue(path: string, message: string)

  /** zod's string length counts UTF-16 code units: a character beyond U+FFFF takes two. */
  function Utf16Length(s: string): (n: nat)
    ensures |s| <= n <= 2 * |s|
  {
    if |s| == 0 then 0 else (if s[0] as int > 0xFFFF then 2 else 1) + Utf16Length(s[1..])
  }

  /** Text within the basic multilingual plane has as many code units as characters. */
  lemma {:induction false} Utf16LengthOfBasic(s: string)
    requires forall k :: 0 <= k < |s| ==> s[k] as int <= 0xFFFF
    ensures Utf16Length(s) == |s|
  {
    if |s| > 0 {
      Utf16LengthOfBasic(s[1..]);
    }
  }

  /** One check: no message when it holds, its message otherwise. */
  function Check(holds: bool, message: string): seq<string>
  {
    if holds then [] else [message]
  }

  /** Messages reported at a key. */
  function At(path: string, messages: seq<string>): (r: seq<Issue>)
    ensures |r| == |messages|
    ensures forall k :: 0 <= k < |r| ==> r[k] == Issue(path, messages[k])
  {
    if |messages| == 0 then [] else [Issue(path, messages[0])] + At(path, messages[1..])
  }

  predicate IsAsciiLetter(c: char) {
    ('a' <= c <= 'z') || ('A' <= c <= 'Z')
  }

  /** `/[a-zA-Z]/` */
  predicate HasAsciiLetter(s: string) {
    exists k :: 0 <= k < |s| && IsAsciiLetter(s[k])
  }

  /** `/[0-9]/` */
  predicate HasDigit(s: string) {
    exists k :: 0 <= k < |s| && IsDigit(s[k])
  }

  /** `/[^a-zA-Z0-9]/` */
  predicate HasSpecial(s: string) {
    exists k :: 0 <= k < |s| && !IsAsciiLetter(s[k]) && !IsDigit(s[k])
  }

  const PasswordTooShort := "Password must be more than 8 characters"
  const PasswordTooLong := "Password must be less than 15 characters"
  const PasswordNoLetter := "Contain at least one letter."
  const PasswordNoDigit := "Contain at least one number."
  const PasswordNoSpecial := "Contain at least one special character."

  /** The rules of `passwordField`, on the text as submitted. */
  predicate PasswordAccepted(s: string) {
    && 8 <= Utf16Length(s) <= 15
    && HasAsciiLetter(s)
    && HasDigit(s)
    && HasSpecial(s)
  }

  /**
   * The messages of `passwordField`'s checks, in declared order. The final
   * `.trim()` changes only the parsed value, not what is checked.
   */
  function PasswordIssues(s: string): (r: seq<string>)
    ensures r == [] <==> PasswordAccepted(s)
    ensures PasswordTooShort in r <==> Utf16Length(s) < 8
    ensures PasswordTooLong in r <==> Utf16Length(s) > 15
    ensures PasswordNoLetter in r <==> !HasAsciiLetter(s)
    ensures PasswordNoDigit in r <==> !HasDigit(s)
    ensures PasswordNoSpecial in r <==> !HasSpecial(s)
  {
    Check(Utf16Length(s) >= 8, PasswordTooShort)
    + Check(Utf16Length(s) <= 15, PasswordTooLong)
    + Check(HasAsciiLetter(s), PasswordNoLetter)
    + Check(HasDigit(s), PasswordNoDigit)
    + Check(HasSpecial(s), PasswordNoSpecial)
  }

  /** The value `passwordField` yields: the submitted text without surrounding white space. */
  function PasswordValue(s: string): string
  {
    Trim(s)
  }

  const EmailRequired := "Email is required"

  /**
   * `emailField`: non-empty, then zod's e-mail pattern, which is left abstract
   * as `emailPattern`.
   */
  function EmailIssues(s: string, emailPattern: string -> bool, invalidMessage: string): (r: seq<string>)
    ensures r == [] <==> s != "" && emailPattern(s)
  {
    Check(Utf16Length(s) >= 1, EmailRequired) + Check(emailPattern(s), invalidMessage)
  }

  /** `loginSchema`: e-mail, then password. */
  function LoginIssues(email: string, password: string, emailPattern: string -> bool): (r: seq<Issue>)
    ensures r == [] <==> email != "" && emailPattern(email) && PasswordAccepted(password)
  {
    At("email", EmailIssues(email, emailPattern, "Invalid email!")) + At("password", PasswordIssues(password))
  }

  /** `forgotPasswordSchema`: the e-mail alone. */
  function ForgotPasswordIssues(email: string, emailPattern: string -> bool): (r: seq<Issue>)
    ensures r == [] <==> email != "" && emailPattern(email)
  {
    At("email", EmailIssues(email, emailPattern, "Invalid email!"))
  }

  /** A character of `/^[0-9+()\-\s]+$/`. */
  predicate IsPhoneChar(c: char) {
    IsDigit(c) || c == '+' || c == '(' || c == ')' || c == '-' || IsJsWhitespace(c)
  }

  predicate AllPhoneChars(s: string) {
    forall k :: 0 <= k < |s| ==> IsPhoneChar(s[k])
  }

  const PhoneTooShort := "Phone number must be at least 10 digits."
  const PhoneTooLong := "Phone number is too long."
  const PhoneBadFormat := "Invalid phone number format."

  /** The rules of the register schema's phone field. */
  predicate PhoneAccepted(s: string) {
    10 <= Utf16Length(s) <= 20 && |s| > 0 && AllPhoneChars(s)
  }

  function PhoneIssues(s: string): (r: seq<string>)
    ensures r == [] <==> PhoneAccepted(s)
    ensures PhoneTooShort in r <==> Utf16Length(s) < 10
    ensures PhoneTooLong in r <==> Utf16Length(s) > 20
    ensures PhoneBadFormat in r <==> s == [] || !AllPhoneChars(s)
  {
    Check(Utf16Length(s) >= 10, PhoneTooShort)
    + Check(Utf16Length(s) <= 20, PhoneTooLong)
    + Check(|s| > 0 && AllPhoneChars(s), PhoneBadFormat)
  }

  /** Ten to twenty plain digits make a phone number. */
  lemma PhoneAcceptsDigits(s: string)
    requires 10 <= |s| <= 20 && AllDigits(s)
    ensures PhoneAccepted(s)
  {
    Utf16LengthOfBasic(s);
  }

  /** A phone number never holds a letter. */
  lemma PhoneHasNoLetter(s: string)
    requires PhoneAccepted(s)
    ensures !HasAsciiLetter(s)
  {
    forall k | 0 <= k < |s|
      ensures !IsAsciiLetter(s[k])
    {
      assert IsPhoneChar(s[k]);
    }
  }

  /** The fields of the register form. */
  datatype RegisterForm = RegisterForm(
    email: string, password: string, username: string, name: string, phone: string, acceptTerms: bool)

  const TermsMessage := "You must accept the terms and conditions"

  predicate RegisterAccepted(form: RegisterForm, emailPattern: string -> bool) {
    && form.email != "" && emailPattern(form.email)
    && PasswordAccepted(form.password)
    && Utf16Length(form.username) >= 2
    && Utf16Length(form.name) >= 2
    && PhoneAccepted(form.phone)
    && form.acceptTerms
  }

  /** `registerSchema`: the login keys, then username, name, phone and the terms. */
  function RegisterIssues(form: RegisterForm, emailPattern: string -> bool): (r: seq<Issue>)
    ensures r == [] <==> RegisterAccepted(form, emailPattern)
  {
    LoginIssues(form.email, form.password, emailPattern)
    + At("username", Check(Utf16Length(form.username) >= 2, "Username must be at least 2 characters."))
    + At("name", Check(Utf16Length(form.name) >= 2, "Name must be at least 2 characters."))
    + At("phone", PhoneIssues(form.phone))
    + At("acceptTerms", Check(form.acceptTerms, TermsMessage))
  }

  /** An issue is reported at a key exactly when that key's messages hold it. */
  lemma InAt(path: string, messages: seq<string>, issue: Issue)
    ensures issue in At(path, messages) <==> issue.path == path && issue.message in messages
  {
    if issue in At(path, messages) {
      var k :| 0 <= k < |messages| && At(path, messages)[k] == issue;
    }
    if issue.path == path && issue.message in messages {
      var k :| 0 <= k < |messages| && messages[k] == issue.message;
      assert At(path, messages)[k] == issue;
    }
  }

  /** The terms issue is raised exactly when the terms are not accepted. */
  lemma RegisterTermsIssue(form: RegisterForm, emailPattern: string -> bool)
    ensures Issue("acceptTerms", TermsMessage) in RegisterIssues(form, emailPattern) <==> !form.acceptTerms
  {
    var issue := Issue("acceptTerms", TermsMessage);
    InAt("email", EmailIssues(form.email, emailPattern, "Invalid email!"), issue);
    InAt("password", PasswordIssues(form.password), issue);
    InAt("username", Check(Utf16Length(form.username) >= 2, "Username must be at least 2 characters."), issue);
    InAt("name", Check(Utf16Length(form.name) >= 2, "Name must be at least 2 characters."), issue);
    InAt("phone", PhoneIssues(form.phone), issue);
    InAt("acceptTerms", Check(form.acceptTerms, TermsMessage), issue);
  }

  /** The fields of the create-password form. */
  datatype CreatePasswordForm = CreatePasswordForm(password: string, confirmPassword: string, acceptTerms: bool)

  const MismatchIssue := Issue("confirmPassword", "Password does not match")

  /**
   * `createPasswordSchema` as written. The refinement sees the parsed object,
   * whose password is already trimmed while the confirmation is not; it runs
   * only when the terms literal passed, since a failed literal aborts the
   * object. The form passes exactly when the password passes its rules, the
   * terms are accepted, and the trimmed password equals the confirmation as
   * typed; the mismatch is reported at the confirmation exactly when the terms
   * are accepted and the two differ.
   */
  function CreatePasswordIssues(form: CreatePasswordForm): (r: seq<Issue>)
    ensures r == [] <==> PasswordAccepted(form.password) && form.acceptTerms && Trim(form.password) == form.confirmPassword
    ensures MismatchIssue in r <==> form.acceptTerms && Trim(form.password) != form.confirmPassword
  {
    InAt("password", PasswordIssues(form.password), MismatchIssue);
    InAt("acceptTerms", Check(form.acceptTerms, TermsMessage), MismatchIssue);
    At("password", PasswordIssues(form.password))
    + At("acceptTerms", Check(form.acceptTerms, TermsMessage))
    + (if form.acceptTerms && PasswordValue(form.password) != form.confirmPassword then [MismatchIssue] else [])
  }

  /**
   * The same text typed twice is rejected as a mismatch when it begins or ends
   * with white space.
   */
  lemma CreatePasswordRejectsPaddedEntry(p: string)
    requires |p| > 0 && (IsJsWhitespace(p[0]) || IsJsWhitespace(p[|p| - 1]))
    ensures MismatchIssue in CreatePasswordIssues(CreatePasswordForm(p, p, true))
  {
    assert Trim(p) != p;
  }

  /** "Abcdef1! " passes every password rule: nine characters, a letter, a digit, a symbol. */
  lemma PasswordExampleAccepted()
    ensures PasswordAccepted("Abcdef1! ")
  {
    var p := "Abcdef1! ";
    Utf16LengthOfBasic(p);
    assert IsAsciiLetter(p[0]) && IsDigit(p[6]) && !IsAsciiLetter(p[7]) && !IsDigit(p[7]);
  }

  /** "Abcdef1! " typed twice passes every password rule and is still refused, for the mismatch alone. */
  lemma CreatePasswordRejectsExample()
    ensures CreatePasswordIssues(CreatePasswordForm("Abcdef1! ", "Abcdef1! ", true)) == [MismatchIssue]
  {
    var p := "Abcdef1! ";
    PasswordExampleAccepted();
    assert PasswordIssues(p) == [];
    assert IsJsWhitespace(p[|p| - 1]);
    CreatePasswordRejectsPaddedEntry(p);
  }

  /**
   * `createPasswordSchema` with the confirmation trimmed like the password,
   * so that both sides of the refinement are parsed values. The mismatch is
   * then reported exactly when the trimmed entries differ, and the same text
   * typed twice passes exactly when it passes the password rules and the terms
   * are accepted.
   */
  function CreatePasswordIssuesCorrected(form: CreatePasswordForm): (r: seq<Issue>)
    ensures MismatchIssue in r <==> form.acceptTerms && Trim(form.password) != Trim(form.confirmPassword)
    ensures form.password == form.confirmPassword
        ==> (r == [] <==> PasswordAccepted(form.password) && form.acceptTerms)
  {
    InAt("password", PasswordIssues(form.password), MismatchIssue);
    InAt("acceptTerms", Check(form.acceptTerms, TermsMessage), MismatchIssue);
    At("password", PasswordIssues(form.password))
    + At("acceptTerms", Check(form.acceptTerms, TermsMessage))
    + (if form.acceptTerms && PasswordValue(form.password) != Trim(form.confirmPassword) then [MismatchIssue] else [])
  }

  /** The fields of `formSchema`. */
  datatype ContactForm = ContactForm(firstName: string, lastName: string, email: string, phone: string, password: string)

  /** `formSchema`: each field's single check, in shape order. */
  function ContactFormIssues(form: ContactForm, emailPattern: string -> bool): (r: seq<Issue>)
    ensures r == [] <==>
      && form.firstName != "" && form.lastName != "" && emailPattern(form.email)
      && Utf16Length(form.phone) >= 10 && Utf16Length(form.password) >= 6
  {
    At("firstName", Check(Utf16Length(form.firstName) >= 1, "First name is required"))
    + At("lastName", Check(Utf16Length(form.lastName) >= 1, "Last name is required"))
    + At("email", Check(emailPattern(form.email), "Invalid email"))
    + At("phone", Check(Utf16Length(form.phone) >= 10, "Phone number is required"))
    + At("password", Check(Utf16Length(form.password) >= 6, "Password must be at least 6 characters"))
  }

  /** The fields of `lifeCalculatorSchema`. */
  datatype LifeCalculatorForm = LifeCalculatorForm(
    name: string, gender: string, placeOfBirth: string, latitude: string,
    longitude: string, timezone: string, birthDate: string, birthTime: string)

  const Genders := ["male", "female", "other"]

  /** zod's message for a value outside an enumeration. */
  function InvalidGender(received: string): string
  {
    "Invalid enum value. Expected 'male' | 'female' | 'other', received '" + received + "'"
  }

  predicate LifeCalculatorAccepted(form: LifeCalculatorForm) {
    && form.name != "" && form.gender in Genders && form.placeOfBirth != ""
    && form.latitude != "" && form.longitude != "" && form.timezone != ""
    && form.birthDate != "" && form.birthTime != ""
  }

  /** `lifeCalculatorSchema`: every text non-empty, the gender one of three values. */
  function LifeCalculatorIssues(form: LifeCalculatorForm): (r: seq<Issue>)
    ensures r == [] <==> LifeCalculatorAccepted(form)
  {
    At("name", Check(Utf16Length(form.name) >= 1, "Name is required"))
    + At("gender", Check(form.gender in Genders, InvalidGender(form.gender)))
    + At("placeOfBirth", Check(Utf16Length(form.placeOfBirth) >= 1, "Place of Birth is required"))
    + At("latitude", Check(Utf16Length(form.latitude) >= 1, "Latitude is required"))
    + At("longitude", Check(Utf16Length(form.longitude) >= 1, "Longitude is required"))
    + At("timezone", Check(Utf16Length(form.timezone) >= 1, "Timezone is required"))
    + At("birthDate", Check(Utf16Length(form.birthDate) >= 1, "Birth Date is required"))
    + At("birthTime", Check(Utf16Length(form.birthTime) >= 1, "Birth Time is required"))
  }

  /** A required text key of an object schema, with its `.min(1)` message. */
  datatype RequiredText = RequiredText(key: string, message: string)

  function KeySet(fields: seq<RequiredText>): set<string>
  {
    set k | 0 <= k < |fields| :: fields[k].key
  }

  /** Every key of `fields` is present with a non-empty text. */
  predicate HasAllTexts(body: map<string, string>, fields: seq<RequiredText>)
  {
    forall k :: 0 <= k < |fields| ==> fields[k].key in body && body[fields[k].key] != ""
  }

  /** The issues of an object of required texts: "Required" when a key is missing, its message when it is empty. */
  function RequiredIssues(body: map<string, string>, fields: seq<RequiredText>): (r: seq<Issue>)
    ensures r == [] <==> HasAllTexts(body, fields)
  {
    if |fields| == 0 then []
    else
      var f := fields[0];
      (if f.key !in body then [Issue(f.key, "Required")]
       else At(f.key, Check(Utf16Length(body[f.key]) >= 1, f.message)))
      + RequiredIssues(body, fields[1..])
  }

  /**
   * `safeParse` of an object of required texts: without issues, the body
   * restricted to the declared keys, since an object drops unknown keys.
   */
  function ParseRequiredTexts(body: map<string, string>, fields: seq<RequiredText>): (r: Option<map<string, string>>)
    ensures r.Some? <==> HasAllTexts(body, fields)
    ensures r.Some? ==> r.value.Keys == KeySet(fields)
    ensures r.Some? ==> forall key :: key in r.value ==> key in body && r.value[key] == body[key]
  {
    if RequiredIssues(body, fields) == [] then Some(map key | key in body.Keys && key in KeySet(fields) :: body[key])
    else None
  }

  /** `ayuMilanSchema`: fourteen required texts. */
  const AyuMilanFields: seq<RequiredText> := [
    RequiredText("boyName", "Boy Name is required"),
    RequiredText("boyBirthDate", "Boy Birth Date is required"),
    RequiredText("boyBirthTime", "Boy Birth Time is required"),
    RequiredText("boyPlaceOfBirth", "Boy Place of Birth is required"),
    RequiredText("boyLatitude", "Boy Latitude is required"),
    RequiredText("boyLongitude", "Boy Longitude is required"),
    RequiredText("boyTimezone", "Boy Timezone is required"),
    RequiredText("girlName", "Girl Name is required"),
    RequiredText("girlBirthDate", "Girl Birth Date is required"),
    RequiredText("girlBirthTime", "Girl Birth Time is required"),
    RequiredText("girlPlaceOfBirth", "Girl Place of Birth is required"),
    RequiredText("girlLatitude", "Girl Latitude is required"),
    RequiredText("girlLongitude", "Girl Longitude is required"),
    RequiredText("girlTimezone", "Girl Timezone is required")]

  /** A missing key is reported as "Required" at that key. */
  lemma {:induction false} MissingKeyIsReported(body: map<string, string>, fields: seq<RequiredText>, k: nat)
    requires k < |fields| && fields[k].key !in body
    ensures Issue(fields[k].key, "Required") in RequiredIssues(body, fields)
  {
    if k > 0 {
      MissingKeyIsReported(body, fields[1..], k - 1);
    }
  }
}

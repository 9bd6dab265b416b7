/**
 * The signup page: its client-side schema (the server's four rules plus the
 * password confirmation), the data it sends to the signup action, and how
 * it turns the action's result into a stored login, field errors, a toast
 * and a navigation target. `isEmail` stands for zod's `.email()` check.
 */
module SignupPage {
  import opened Wrappers
  import opened JsText
  import opened Forms
  import opened AuthActions

  datatype SignupFormValues = SignupFormValues(
    name: string,
    email: string,
    phone: string,
    password: string,
    confirmPassword: string)

  const PasswordsDontMatch := "Passwords don't match"
  const FormErrorKey := "_form"
  const SignupSucceeded := "Signup Successful!"
  const SignupFailed := "Signup Failed"
  const UnexpectedError := "An unexpected error occurred"
  const TryAgainLater := "Please try again later."

  /** The fields the form registers; `setError` reaches only these. */
  const FormFields: set<string> := {"name", "email", "phone", "password", "confirmPassword"}

  // ------------------------------------------------------------ the schema

  /** `signupSchema`: the four field rules and the object-level `confirmPassword` refinement. */
  predicate ClientValid(isEmail: string -> bool, v: SignupFormValues): (ok: bool)
    ensures ok <==> SignupValid(isEmail, ActionData(v)) && v.password == v.confirmPassword
  {
    && Utf16Length(v.name) >= 2
    && isEmail(v.email)
    && Utf16Length(v.phone) >= 10 && MatchesPhonePattern(v.phone)
    && Utf16Length(v.password) >= 6
    && v.password == v.confirmPassword
  }

  /** The four field rules, each field's messages in rule order. */
  function FieldRuleErrors(isEmail: string -> bool, v: SignupFormValues): (e: FieldErrors)
    ensures e == [] <==> Utf16Length(v.name) >= 2 && isEmail(v.email) && Utf16Length(v.phone) >= 10 && MatchesPhonePattern(v.phone) && Utf16Length(v.password) >= 6
    ensures forall i :: 0 <= i < |e| ==> e[i].field in {"name", "email", "phone", "password"}
  {
    Issues("name", Rule(Utf16Length(v.name) < 2, NameTooShort))
    + Issues("email", Rule(!isEmail(v.email), InvalidEmail))
    + Issues("phone", Rule(Utf16Length(v.phone) < 10, PhoneTooShort) + Rule(!MatchesPhonePattern(v.phone), PhoneBadFormat))
    + Issues("password", Rule(Utf16Length(v.password) < 6, PasswordTooShort))
  }

  /** The refinement runs even when a field has failed, so a mismatch is always reported. */
  function ClientErrors(isEmail: string -> bool, v: SignupFormValues): (e: FieldErrors)
    ensures e == [] <==> ClientValid(isEmail, v)
    ensures HasField(e, "confirmPassword") <==> v.password != v.confirmPassword
    ensures v.password != v.confirmPassword ==> e[|e| - 1] == FieldError("confirmPassword", [PasswordsDontMatch])
  {
    var fields := FieldRuleErrors(isEmail, v);
    var e := fields + Issues("confirmPassword", Rule(v.password != v.confirmPassword, PasswordsDontMatch));
    assert v.password != v.confirmPassword ==> e[|fields|].field == "confirmPassword";
    assert v.password == v.confirmPassword ==> e == fields;
    e
  }

  /** `const { confirmPassword, ...actionData } = data` */
  function ActionData(v: SignupFormValues): (d: SignupData)
    ensures d.name == v.name && d.email == v.email && d.phone == v.phone && d.password == v.password
  {
    SignupData(v.name, v.email, v.phone, v.password)
  }

  /** The client's field rules are the server's: the client reports what the server would, plus the confirmation. */
  lemma ClientRulesAreServerRules(isEmail: string -> bool, v: SignupFormValues)
    ensures ClientErrors(isEmail, v) ==
      SignupErrors(isEmail, ActionData(v)) + Issues("confirmPassword", Rule(v.password != v.confirmPassword, PasswordsDontMatch))
    ensures ClientValid(isEmail, v) ==> SignupValid(isEmail, ActionData(v)) && SignupErrors(isEmail, ActionData(v)) == []
  {
  }

  /** A form the client accepts fails on the server only for a reserved or registered email, and then on the email field. */
  lemma ClientValidFormOutcome(users: seq<User>, isEmail: string -> bool, v: SignupFormValues)
    requires ClientValid(isEmail, v)
    ensures var result := SignupStep(users, isEmail, ActionData(v)).0;
      && (result.success <==> Lower(v.email) != ReservedEmail && !EmailTaken(users, v.email))
      && (!result.success ==> result.errors == Some([FieldError("email", [AlreadyRegistered])]))
  {
    ClientRulesAreServerRules(isEmail, v);
  }

  // ------------------------------------------------------ routing the result

  /** What `onSubmit` set on the form: for each routed field, the joined server messages. */
  function RoutedFieldErrors(errors: FieldErrors): (routed: map<string, string>)
    ensures FormErrorKey !in routed
    ensures forall k :: k in routed ==> k in FormFields
  {
    if errors == [] then map[]
    else
      var prior := RoutedFieldErrors(errors[..|errors| - 1]);
      var e := errors[|errors| - 1];
      if e.field != FormErrorKey && e.field in FormFields then prior[e.field := Join(e.messages, ", ")] else prior
  }

  /** The `forEach` over the error keys: `_form` and keys that are not form fields are skipped. */
  method RouteServerErrors(errors: FieldErrors) returns (set_: map<string, string>)
    ensures set_ == RoutedFieldErrors(errors)
  {
    set_ := map[];
    var i := 0;
    while i < |errors|
      invariant 0 <= i <= |errors|
      invariant set_ == RoutedFieldErrors(errors[..i])
    {
      var key := errors[i].field;
      if key != FormErrorKey && key in FormFields {
        set_ := set_[key := Join(errors[i].messages, ", ")];
      }
      assert errors[..i + 1][..i] == errors[..i];
      i := i + 1;
    }
    assert errors[..|errors|] == errors;
  }

  /** A field gets an error exactly when it is a form field and the server reported it. */
  lemma {:induction false} RoutedFieldsAreReported(errors: FieldErrors, field: string)
    ensures field in RoutedFieldErrors(errors) <==> field in FormFields && HasField(errors, field)
  {
    if errors != [] {
      var init := errors[..|errors| - 1];
      RoutedFieldsAreReported(init, field);
      if HasField(errors, field) && !HasField(init, field) {
        var i :| 0 <= i < |errors| && errors[i].field == field;
        assert i == |errors| - 1;
      }
      if HasField(init, field) {
        var i :| 0 <= i < |init| && init[i].field == field;
        assert errors[i].field == field;
      }
    }
  }

  /** With distinct keys, as in an object, each routed field shows that field's messages joined by ", ". */
  lemma {:induction false} RoutedMessagesJoined(errors: FieldErrors, k: nat)
    requires DistinctFields(errors)
    requires k < |errors| && errors[k].field in FormFields
    ensures errors[k].field in RoutedFieldErrors(errors)
    ensures RoutedFieldErrors(errors)[errors[k].field] == Join(errors[k].messages, ", ")
  {
    var init := errors[..|errors| - 1];
    if k < |errors| - 1 {
      assert init[k] == errors[k];
      RoutedMessagesJoined(init, k);
    }
    assert FormErrorKey !in FormFields;
  }

  datatype Toast = Toast(title: string, description: Option<string>, destructive: bool)

  /** Everything one submission leads to, once the action has answered. */
  datatype SubmitOutcome = SubmitOutcome(
    storesLogin: bool,
    fieldErrors: map<string, string>,
    toast: Option<Toast>,
    navigateTo: Option<string>)

  /** JavaScript truthiness of an optional string. */
  predicate Truthy(s: Option<string>) {
    s.Some? && s.value != ""
  }

  /** `Object.values(result.errors).some(e => e && e.length > 0)` */
  predicate AnyFieldMessages(errors: FieldErrors) {
    exists i :: 0 <= i < |errors| && errors[i].messages != []
  }

  /** The branches of `onSubmit` after the action returns, in the page's order. */
  function Submitted(result: FormState): (o: SubmitOutcome)
    ensures o.storesLogin <==> result.success && result.user.Some?
    ensures o.navigateTo.Some? <==> o.storesLogin
    ensures o.storesLogin ==> o.navigateTo == Some(if Truthy(result.redirectTo) then result.redirectTo.value else HomePath)
    ensures o.storesLogin ==> o.fieldErrors == map[] && o.toast == Some(Toast(SignupSucceeded, result.message, false))
    ensures !o.storesLogin && result.errors.Some? ==> o.fieldErrors == RoutedFieldErrors(result.errors.value)
    ensures !o.storesLogin && result.errors.Some? && HasField(result.errors.value, FormErrorKey) ==>
      o.toast == Some(Toast(SignupFailed, Some(Join(MessagesOf(result.errors.value, FormErrorKey).value, ", ")), true))
    ensures !o.storesLogin && result.errors.Some? && !HasField(result.errors.value, FormErrorKey) ==>
      o.toast == (if Truthy(result.message) && !AnyFieldMessages(result.errors.value)
                  then Some(Toast(SignupFailed, result.message, true)) else None)
    ensures !o.storesLogin && result.errors.None? ==> o.fieldErrors == map[] && o.toast.Some? && o.toast.value.destructive
    ensures !o.storesLogin && result.errors.None? && Truthy(result.message) ==>
      o.toast == Some(Toast(SignupFailed, result.message, true))
    ensures !o.storesLogin && result.errors.None? && !Truthy(result.message) ==>
      o.toast == Some(Toast(UnexpectedError, Some(TryAgainLater), true))
    ensures o.toast.Some? && o.toast.value.title == SignupFailed ==> o.toast.value.description.Some?
  {
    if result.success && result.user.Some? then
      var target := if Truthy(result.redirectTo) then result.redirectTo.value else HomePath;
      SubmitOutcome(true, map[], Some(Toast(SignupSucceeded, result.message, false)), Some(target))
    else if result.errors.Some? then
      var errors := result.errors.value;
      var toast :=
        match MessagesOf(errors, FormErrorKey)
        case Some(form) => Some(Toast(SignupFailed, Some(Join(form, ", ")), true))
        case None =>
          if Truthy(result.message) && !AnyFieldMessages(errors) then Some(Toast(SignupFailed, result.message, true))
          else None;
      SubmitOutcome(false, RoutedFieldErrors(errors), toast, None)
    else if Truthy(result.message) then
      SubmitOutcome(false, map[], Some(Toast(SignupFailed, result.message, true)), None)
    else
      SubmitOutcome(false, map[], Some(Toast(UnexpectedError, Some(TryAgainLater), true)), None)
  }

  /** A successful signup logs the user in and goes home, with the welcome message as the toast. */
  lemma SignupSuccessGoesHome(users: seq<User>, isEmail: string -> bool, v: SignupFormValues)
    requires ClientValid(isEmail, v)
    requires Lower(v.email) != ReservedEmail && !EmailTaken(users, v.email)
    ensures var o := Submitted(SignupStep(users, isEmail, ActionData(v)).0);
      o.storesLogin && o.navigateTo == Some(HomePath) && o.toast == Some(Toast(SignupSucceeded, Some(WelcomeMessage(v.name)), false))
  {
    ClientValidFormOutcome(users, isEmail, v);
  }

  /** A registered email is shown on the email field, and no toast repeats it. */
  lemma RegisteredEmailShownOnField(users: seq<User>, isEmail: string -> bool, v: SignupFormValues)
    requires ClientValid(isEmail, v)
    requires EmailTaken(users, v.email)
    ensures var o := Submitted(SignupStep(users, isEmail, ActionData(v)).0);
      !o.storesLogin && o.fieldErrors == map["email" := AlreadyRegistered] && o.toast.None? && o.navigateTo.None?
  {
    ClientValidFormOutcome(users, isEmail, v);
    var errors := [FieldError("email", [AlreadyRegistered])];
    assert errors[..0] == [];
    assert RoutedFieldErrors(errors) == map[]["email" := Join([AlreadyRegistered], ", ")];
    assert !HasField(errors, FormErrorKey);
    assert AnyFieldMessages(errors) by {
      assert errors[0].messages != [];
    }
  }
}

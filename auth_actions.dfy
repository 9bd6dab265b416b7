/**
 * The simulated account actions of the storefront's server: signup, login
 * and profile update over a process-wide list of users. Email addresses are
 * compared after ASCII lower-casing; `isEmail` stands for zod's `.email()`
 * check, which is library behaviour and not modelled.
 */
module AuthActions {
  import opened Wrappers
  import opened JsText
  import opened JsArray
  import opened Forms

  datatype User = User(name: string, email: string, phone: string, password: string, address: Option<string>)

  /** What the signup form sends: the user without an address. */
  datatype SignupData = SignupData(name: string, email: string, phone: string, password: string)

  /** What the profile page sends; an absent field is left as it is. */
  datatype ProfileUpdate = ProfileUpdate(userId: string, name: Option<string>, phone: Option<string>, address: Option<string>)

  /** The result every action returns to its page. */
  datatype FormState = FormState(
    success: bool,
    message: Option<string>,
    errors: Option<FieldErrors>,
    user: Option<User>,
    redirectTo: Option<string>)

  const NameTooShort := "Name must be at least 2 characters."
  const InvalidEmail := "Invalid email address."
  const InvalidUserId := "Invalid email"
  const PhoneTooShort := "Phone number must be at least 10 digits."
  const PhoneBadFormat := "Invalid phone number format."
  const PasswordTooShort := "Password must be at least 6 characters."
  const PasswordEmpty := "Password cannot be empty."
  const SignupValidationFailed := "Validation failed. Please check the form."
  const LoginValidationFailed := "Validation failed. Please check your input."
  const AlreadyRegistered := "This email address is already registered."
  const InvalidCredentials := "Invalid email or password."
  const InvalidCredentialsDetail := "Invalid email or password. Please try again."
  const UserNotFound := "User not found. This can happen if the server restarted. Please try logging in again or re-registering."
  const ProfileUpdated := "Profile updated successfully!"
  const TestLoginMessage := "Login successful! Redirecting..."
  const HomePath := "/"

  /** The address signup always refuses, whatever its letter case. */
  const ReservedEmail := "exists@example.com"

  /** The account login always accepts, stored or not. */
  const TestUser := User("Test User", "test@example.com", "1234567890", "password123", Some("123 Test St"))

  function WelcomeMessage(name: string): string {
    "Welcome, " + name + "! Your account has been created. Redirecting..."
  }

  function WelcomeBackMessage(name: string): string {
    "Login successful! Welcome back, " + name + ". Redirecting..."
  }

  // ---------------------------------------------------------------- schemas

  /** A character of the class `[0-9\s-()]`. */
  predicate PhoneClassChar(c: char) {
    '0' <= c <= '9' || IsJsWhitespace(c) || c == '-' || c == '(' || c == ')'
  }

  /** `/^\+?[0-9\s-()]+$/`: an optional leading plus, then at least one class character and nothing else. */
  predicate MatchesPhonePattern(phone: string) {
    var body := if phone != [] && phone[0] == '+' then phone[1..] else phone;
    body != [] && forall i :: 0 <= i < |body| ==> PhoneClassChar(body[i])
  }

  predicate NameOk(name: string) { Utf16Length(name) >= 2 }

  predicate PhoneOk(phone: string) { Utf16Length(phone) >= 10 && MatchesPhonePattern(phone) }

  predicate PasswordOk(password: string) { Utf16Length(password) >= 6 }

  function NameMessages(name: string): (m: seq<string>)
    ensures m == [] <==> NameOk(name)
  {
    Rule(Utf16Length(name) < 2, NameTooShort)
  }

  /** Both phone rules are checked: a short, malformed number gets both messages. */
  function PhoneMessages(phone: string): (m: seq<string>)
    ensures m == [] <==> PhoneOk(phone)
    ensures |m| == (if Utf16Length(phone) < 10 then 1 else 0) + (if MatchesPhonePattern(phone) then 0 else 1)
  {
    Rule(Utf16Length(phone) < 10, PhoneTooShort) + Rule(!MatchesPhonePattern(phone), PhoneBadFormat)
  }

  /** The signup rules: name, email, phone and password. */
  predicate SignupValid(isEmail: string -> bool, d: SignupData) {
    NameOk(d.name) && isEmail(d.email) && PhoneOk(d.phone) && PasswordOk(d.password)
  }

  function SignupErrors(isEmail: string -> bool, d: SignupData): (e: FieldErrors)
    ensures e == [] <==> SignupValid(isEmail, d)
    ensures forall i :: 0 <= i < |e| ==> e[i].field in {"name", "email", "phone", "password"} && e[i].messages != []
  {
    Issues("name", NameMessages(d.name))
    + Issues("email", Rule(!isEmail(d.email), InvalidEmail))
    + Issues("phone", PhoneMessages(d.phone))
    + Issues("password", Rule(!PasswordOk(d.password), PasswordTooShort))
  }

  predicate LoginValid(isEmail: string -> bool, email: string, password: string) {
    isEmail(email) && Utf16Length(password) >= 1
  }

  function LoginErrors(isEmail: string -> bool, email: string, password: string): (e: FieldErrors)
    ensures e == [] <==> LoginValid(isEmail, email, password)
  {
    Issues("email", Rule(!isEmail(email), InvalidEmail))
    + Issues("password", Rule(Utf16Length(password) < 1, PasswordEmpty))
  }

  /** The profile rules: a valid user id, and name and phone checked only when sent. */
  predicate ProfileUpdateValid(isEmail: string -> bool, p: ProfileUpdate) {
    isEmail(p.userId)
    && (p.name.Some? ==> NameOk(p.name.value))
    && (p.phone.Some? ==> PhoneOk(p.phone.value))
  }

  function ProfileUpdateErrors(isEmail: string -> bool, p: ProfileUpdate): (e: FieldErrors)
    ensures e == [] <==> ProfileUpdateValid(isEmail, p)
  {
    Issues("userId", Rule(!isEmail(p.userId), InvalidUserId))
    + Issues("name", if p.name.Some? then NameMessages(p.name.value) else [])
    + Issues("phone", if p.phone.Some? then PhoneMessages(p.phone.value) else [])
  }

  // ---------------------------------------------------------- the user store

  predicate SameEmail(a: string, b: string) {
    Lower(a) == Lower(b)
  }

  /** `u => u.email.toLowerCase() === email.toLowerCase()` */
  function MatchesEmail(email: string): User -> bool {
    (u: User) => SameEmail(u.email, email)
  }

  /** `u => u.email.toLowerCase() === email.toLowerCase() && u.password === password` */
  function MatchesCredentials(email: string, password: string): User -> bool {
    (u: User) => SameEmail(u.email, email) && u.password == password
  }

  predicate EmailTaken(users: seq<User>, email: string) {
    exists i :: 0 <= i < |users| && SameEmail(users[i].email, email)
  }

  predicate HasCredentials(users: seq<User>, email: string, password: string) {
    exists i :: 0 <= i < |users| && SameEmail(users[i].email, email) && users[i].password == password
  }

  /** No two stored users share a lower-cased email, and none has the reserved one. */
  predicate StoreInvariant(users: seq<User>) {
    && (forall i, j :: 0 <= i < j < |users| ==> !SameEmail(users[i].email, users[j].email))
    && (forall i :: 0 <= i < |users| ==> Lower(users[i].email) != ReservedEmail)
  }

  lemma LowerOfLowercase(s: string)
    requires forall i :: 0 <= i < |s| ==> !('A' <= s[i] <= 'Z')
    ensures Lower(s) == s
  {
  }

  lemma TestEmailIsLowercase()
    ensures Lower(TestUser.email) == TestUser.email
    ensures Lower(TestUser.email) != ReservedEmail
  {
    LowerOfLowercase(TestUser.email);
  }

  /** Appending a user whose email is new and not reserved keeps the invariant. */
  lemma AppendKeepsInvariant(users: seq<User>, u: User)
    requires StoreInvariant(users)
    requires !EmailTaken(users, u.email) && Lower(u.email) != ReservedEmail
    ensures StoreInvariant(users + [u])
  {
    var s := users + [u];
    forall i, j | 0 <= i < j < |s| ensures !SameEmail(s[i].email, s[j].email) {
      if j == |users| {
        assert s[j] == u && s[i] == users[i];
      }
    }
  }

  /** Replacing a user by one with the same email keeps the invariant. */
  lemma ReplaceKeepsInvariant(users: seq<User>, k: nat, v: User)
    requires StoreInvariant(users)
    requires k < |users| && v.email == users[k].email
    ensures StoreInvariant(users[k := v])
  {
    var s := users[k := v];
    assert forall i :: 0 <= i < |s| ==> s[i].email == users[i].email;
  }

  // ---------------------------------------------------- the three operations

  /** `signupUserAction` as a function of the store before the call: the result and the store after it. */
  function SignupStep(users: seq<User>, isEmail: string -> bool, d: SignupData): (out: (FormState, seq<User>))
    ensures out.0.success <==> SignupValid(isEmail, d) && Lower(d.email) != ReservedEmail && !EmailTaken(users, d.email)
    ensures !out.0.success ==> out.1 == users && out.0.user == None && out.0.redirectTo == None
    ensures !SignupValid(isEmail, d) ==> out.0.errors == Some(SignupErrors(isEmail, d)) && out.0.message == Some(SignupValidationFailed)
    ensures SignupValid(isEmail, d) && !out.0.success ==>
      out.0.message == Some(AlreadyRegistered) && out.0.errors == Some([FieldError("email", [AlreadyRegistered])])
    ensures out.0.success ==>
      var u := User(d.name, d.email, d.phone, d.password, Some(""));
      out.1 == users + [u] && out.0.user == Some(u) && out.0.redirectTo == Some(HomePath)
    ensures StoreInvariant(users) ==> StoreInvariant(out.1)
  {
    var errors := SignupErrors(isEmail, d);
    if errors != [] then
      (FormState(false, Some(SignupValidationFailed), Some(errors), None, None), users)
    else if Lower(d.email) == ReservedEmail || EmailTaken(users, d.email) then
      (FormState(false, Some(AlreadyRegistered), Some([FieldError("email", [AlreadyRegistered])]), None, None), users)
    else
      var u := User(d.name, d.email, d.phone, d.password, Some(""));
      var _ := if StoreInvariant(users) then AppendKeepsInvariant(users, u); 0 else 0;
      (FormState(true, Some(WelcomeMessage(d.name)), None, Some(u), Some(HomePath)), users + [u])
  }

  /** The hard-coded account: its email in any letter case, and its exact password. */
  predicate IsTestLogin(email: string, password: string) {
    Lower(email) == TestUser.email && password == TestUser.password
  }

  /** The lookup half of `loginUserAction`, once the schema has passed. */
  function LoginLookup(users: seq<User>, email: string, password: string): (out: (FormState, seq<User>))
    ensures out.0.success <==> HasCredentials(users, email, password) || IsTestLogin(email, password)
    ensures !out.0.success ==>
      && out.1 == users && out.0.user == None
      && out.0.message == Some(InvalidCredentials)
      && out.0.errors == Some([FieldError("_form", [InvalidCredentialsDetail])])
    ensures HasCredentials(users, email, password) ==>
      out.1 == users &&
      exists k :: 0 <= k < |users| && out.0.user == Some(users[k])
        && SameEmail(users[k].email, email) && users[k].password == password
        && forall j :: 0 <= j < k ==> !(SameEmail(users[j].email, email) && users[j].password == password)
    ensures out.0.success && !HasCredentials(users, email, password) ==>
      out.0.user == Some(TestUser) &&
      out.1 == (if EmailTaken(users, TestUser.email) then users else users + [TestUser])
    ensures out.0.success ==> out.0.redirectTo == Some(HomePath)
    ensures StoreInvariant(users) ==> StoreInvariant(out.1)
  {
    match FindIndex(users, MatchesCredentials(email, password))
    case Some(k) =>
      (FormState(true, Some(WelcomeBackMessage(users[k].name)), None, Some(users[k]), Some(HomePath)), users)
    case None =>
      if IsTestLogin(email, password) then
        TestEmailIsLowercase();
        var taken := EmailTaken(users, TestUser.email);
        var _ := if StoreInvariant(users) && !taken then AppendKeepsInvariant(users, TestUser); 0 else 0;
        (FormState(true, Some(TestLoginMessage), None, Some(TestUser), Some(HomePath)),
         if taken then users else users + [TestUser])
      else
        (FormState(false, Some(InvalidCredentials), Some([FieldError("_form", [InvalidCredentialsDetail])]), None, None), users)
  }

  /** `loginUserAction`: the first stored match wins; otherwise the test account; otherwise failure. */
  function LoginStep(users: seq<User>, isEmail: string -> bool, email: string, password: string): (out: (FormState, seq<User>))
    ensures out.0.success <==>
      LoginValid(isEmail, email, password) && (HasCredentials(users, email, password) || IsTestLogin(email, password))
    ensures !out.0.success ==> out.1 == users && out.0.user == None
    ensures !LoginValid(isEmail, email, password) ==>
      out.0.errors == Some(LoginErrors(isEmail, email, password)) && out.0.message == Some(LoginValidationFailed)
    ensures LoginValid(isEmail, email, password) ==> out == LoginLookup(users, email, password)
    ensures StoreInvariant(users) ==> StoreInvariant(out.1)
  {
    var errors := LoginErrors(isEmail, email, password);
    if errors != [] then
      (FormState(false, Some(LoginValidationFailed), Some(errors), None, None), users)
    else
      LoginLookup(users, email, password)
  }

  /** The stored user after an update: name and phone when sent, address when sent or else the old one or empty. */
  function Updated(u: User, p: ProfileUpdate): (r: User)
    ensures r.email == u.email && r.password == u.password
    ensures r.address.Some?
    ensures p.name.None? && p.phone.None? && p.address.None? && u.address.Some? ==> r == u
  {
    u.(name := p.name.GetOr(u.name),
       phone := p.phone.GetOr(u.phone),
       address := Some(if p.address.Some? then p.address.value else u.address.GetOr("")))
  }

  /** `updateUserProfileAction`: the first user whose email matches the user id, case-insensitively, is updated in place. */
  function UpdateStep(users: seq<User>, isEmail: string -> bool, p: ProfileUpdate): (out: (FormState, seq<User>))
    ensures out.0.success <==> ProfileUpdateValid(isEmail, p) && EmailTaken(users, p.userId)
    ensures !out.0.success ==> out.1 == users && out.0.user == None
    ensures !ProfileUpdateValid(isEmail, p) ==> out.0.errors == Some(ProfileUpdateErrors(isEmail, p))
    ensures ProfileUpdateValid(isEmail, p) && !out.0.success ==>
      out.0.message == Some(UserNotFound) && out.0.errors == Some([FieldError("_form", [UserNotFound])])
    ensures out.0.success ==>
      exists k :: 0 <= k < |users| && SameEmail(users[k].email, p.userId)
        && (forall j :: 0 <= j < k ==> !SameEmail(users[j].email, p.userId))
        && out.1 == users[k := Updated(users[k], p)]
        && out.0.user == Some(out.1[k]) && out.0.message == Some(ProfileUpdated)
    ensures |out.1| == |users|
    ensures forall i :: 0 <= i < |users| ==> out.1[i].email == users[i].email && out.1[i].password == users[i].password
    ensures StoreInvariant(users) ==> StoreInvariant(out.1)
  {
    var errors := ProfileUpdateErrors(isEmail, p);
    if errors != [] then
      (FormState(false, Some(SignupValidationFailed), Some(errors), None, None), users)
    else match FindIndex(users, MatchesEmail(p.userId))
      case None =>
        (FormState(false, Some(UserNotFound), Some([FieldError("_form", [UserNotFound])]), None, None), users)
      case Some(k) =>
        var users' := users[k := Updated(users[k], p)];
        var _ := if StoreInvariant(users) then ReplaceKeepsInvariant(users, k, Updated(users[k], p)); 0 else 0;
        (FormState(true, Some(ProfileUpdated), None, Some(users'[k]), None), users')
  }

  /** The process-wide store of simulated users, changed in place by the three actions. */
  class UserStore {
    var users: seq<User>

    ghost predicate Valid()
      reads this
    {
      StoreInvariant(users)
    }

    constructor ()
      ensures Valid() && users == []
    {
      users := [];
    }

    method SignupUser(isEmail: string -> bool, d: SignupData) returns (r: FormState)
      requires Valid()
      modifies this
      ensures Valid()
      ensures (r, users) == SignupStep(old(users), isEmail, d)
    {
      var errors := SignupErrors(isEmail, d);
      if errors != [] {
        return FormState(false, Some(SignupValidationFailed), Some(errors), None, None);
      }
      if Lower(d.email) == ReservedEmail || Find(users, MatchesEmail(d.email)).Some? {
        return FormState(false, Some(AlreadyRegistered), Some([FieldError("email", [AlreadyRegistered])]), None, None);
      }
      var newUser := User(d.name, d.email, d.phone, d.password, Some(""));
      users := users + [newUser];
      r := FormState(true, Some(WelcomeMessage(d.name)), None, Some(newUser), Some(HomePath));
    }

    method LoginUser(isEmail: string -> bool, email: string, password: string) returns (r: FormState)
      requires Valid()
      modifies this
      ensures Valid()
      ensures (r, users) == LoginStep(old(users), isEmail, email, password)
    {
      var errors := LoginErrors(isEmail, email, password);
      if errors != [] {
        return FormState(false, Some(LoginValidationFailed), Some(errors), None, None);
      }
      ghost var expected := LoginLookup(users, email, password);
      assert expected == LoginStep(users, isEmail, email, password);
      var found := Find(users, MatchesCredentials(email, password));
      if found.Some? {
        assert found.value == users[FindIndex(users, MatchesCredentials(email, password)).value];
        return FormState(true, Some(WelcomeBackMessage(found.value.name)), None, Some(found.value), Some(HomePath));
      }
      if Lower(email) == TestUser.email && password == TestUser.password {
        assert IsTestLogin(email, password);
        if Find(users, MatchesEmail(TestUser.email)).None? {
          assert !EmailTaken(users, TestUser.email);
          users := users + [TestUser];
        }
        return FormState(true, Some(TestLoginMessage), None, Some(TestUser), Some(HomePath));
      }
      r := FormState(false, Some(InvalidCredentials), Some([FieldError("_form", [InvalidCredentialsDetail])]), None, None);
    }

    method UpdateUserProfile(isEmail: string -> bool, p: ProfileUpdate) returns (r: FormState)
      requires Valid()
      modifies this
      ensures Valid()
      ensures (r, users) == UpdateStep(old(users), isEmail, p)
    {
      var errors := ProfileUpdateErrors(isEmail, p);
      if errors != [] {
        return FormState(false, Some(SignupValidationFailed), Some(errors), None, None);
      }
      var userIndex := FindIndex(users, MatchesEmail(p.userId));
      if userIndex.None? {
        return FormState(false, Some(UserNotFound), Some([FieldError("_form", [UserNotFound])]), None, None);
      }
      var k := userIndex.value;
      var userToUpdate := users[k];
      userToUpdate := userToUpdate.(name := if p.name.Some? then p.name.value else userToUpdate.name);
      userToUpdate := userToUpdate.(phone := if p.phone.Some? then p.phone.value else userToUpdate.phone);
      userToUpdate := userToUpdate.(address := Some(if p.address.Some? then p.address.value
                                                   else if userToUpdate.address.Some? && userToUpdate.address.value != "" then userToUpdate.address.value
                                                   else ""));
      assert userToUpdate == Updated(old(users)[k], p);
      ReplaceKeepsInvariant(users, k, userToUpdate);
      users := users[k := userToUpdate];
      r := FormState(true, Some(ProfileUpdated), None, Some(users[k]), None);
    }
  }
}

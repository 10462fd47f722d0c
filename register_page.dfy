/**
 * The client-side logic of the registration page: field validation before
 * submission, the mapping of a failed server reply onto per-field error
 * messages, and the state update of a keystroke in one of the inputs.
 */
module RegisterPage {
  import opened Wrappers

  /** The four inputs of the form. */
  datatype Field = Name | Email | Password | ConfirmPassword

  /** The key an input's value and error are stored under (its `name` attribute). */
  function Key(f: Field): string {
    match f
    case Name => "name"
    case Email => "email"
    case Password => "password"
    case ConfirmPassword => "confirmPassword"
  }

  datatype FormData = FormData(name: string, email: string, password: string, confirmPassword: string)

  function Get(form: FormData, f: Field): string {
    match f
    case Name => form.name
    case Email => form.email
    case Password => form.password
    case ConfirmPassword => form.confirmPassword
  }

  /** Error messages keyed by field name (or "general"). */
  type Errors = map<string, string>

  const NameRequired := "Name is required"
  const EmailRequired := "Email is required"
  const EmailInvalid := "Invalid email format"
  const PasswordRequired := "Password is required"
  const PasswordTooShort := "Password must be at least 8 characters"
  const PasswordsDiffer := "Passwords do not match"
  const RegistrationFailed := "Registration failed"
  const NetworkError := "Network error. Please try again."

  const MinPasswordLength := 8

  /**
   * The characters JavaScript's `\s` class matches: the WhiteSpace and
   * LineTerminator code points of ECMAScript.
   */
  predicate IsJsWhitespace(c: char) {
    || c == '\t' || c == '\n' || c == '\U{000B}' || c == '\U{000C}' || c == '\r' || c == ' '
    || c == '\U{00A0}' || c == '\U{1680}' || ('\U{2000}' <= c <= '\U{200A}')
    || c == '\U{2028}' || c == '\U{2029}' || c == '\U{202F}' || c == '\U{205F}'
    || c == '\U{3000}' || c == '\U{FEFF}'
  }

  /** A character of the class `[^\s@]`. */
  predicate IsWordChar(c: char) {
    !IsJsWhitespace(c) && c != '@'
  }

  /**
   * What `^[^\s@]+@[^\s@]+\.[^\s@]+$` accepts, read off the pattern: no
   * whitespace anywhere, exactly one `@`, at index `at`, with something before
   * it, and a `.` at index `dot` with something between the two and after it.
   */
  ghost predicate EmailSplit(s: string, at: nat, dot: nat) {
    && 1 <= at && at + 2 <= dot && dot + 2 <= |s|
    && s[at] == '@' && s[dot] == '.'
    && forall i :: 0 <= i < |s| && i != at ==> IsWordChar(s[i])
  }

  ghost predicate MatchesEmailPattern(s: string) {
    exists at: nat, dot: nat :: EmailSplit(s, at, dot)
  }

  /** The index of the first `c` in `s`, or -1 when there is none. */
  function IndexOf(s: string, c: char): (r: int)
    ensures r == -1 <==> c !in s
    ensures r != -1 ==> 0 <= r < |s| && s[r] == c && c !in s[..r]
  {
    if s == [] then -1
    else if s[0] == c then 0
    else
      var r := IndexOf(s[1..], c);
      assert s[1..][..if r == -1 then 0 else r] == s[1..if r == -1 then 1 else r + 1];
      if r == -1 then -1 else r + 1
  }

  /** No character of `s` is whitespace. */
  predicate NoWhitespace(s: string) {
    s == [] || (!IsJsWhitespace(s[0]) && NoWhitespace(s[1..]))
  }

  lemma {:induction false} NoWhitespaceAt(s: string)
    ensures NoWhitespace(s) <==> forall i | 0 <= i < |s| :: !IsJsWhitespace(s[i])
  {
    if s != [] {
      NoWhitespaceAt(s[1..]);
      assert forall i | 0 <= i < |s[1..]| :: s[1..][i] == s[i + 1];
    }
  }

  /**
   * The email scan: no whitespace, a first `@` after at least one character,
   * no second `@`, and a `.` strictly inside what follows the `@`.
   */
  predicate ScanEmail(s: string) {
    && NoWhitespace(s)
    && var at := IndexOf(s, '@');
       && at > 0
       && IndexOf(s[at + 1..], '@') == -1
       && var domain := s[at + 1..];
          |domain| >= 3 && IndexOf(domain[1..|domain| - 1], '.') != -1
  }

  /** The scan accepts exactly the strings the pattern accepts. */
  lemma EmailCheckIsPattern(s: string)
    ensures ScanEmail(s) <==> MatchesEmailPattern(s)
  {
    NoWhitespaceAt(s);
    if ScanEmail(s) {
      var at := IndexOf(s, '@');
      var domain := s[at + 1..];
      var inner := domain[1..|domain| - 1];
      var m := IndexOf(inner, '.');
      var dot := at + 2 + m;
      assert s[dot] == inner[m];
      forall i | 0 <= i < |s| && i != at ensures IsWordChar(s[i]) {
        if i < at {
          assert s[..at][i] == s[i];
        } else {
          assert domain[i - at - 1] == s[i];
        }
      }
      assert EmailSplit(s, at, dot);
    }
    if MatchesEmailPattern(s) {
      var at: nat, dot: nat :| EmailSplit(s, at, dot);
      assert s[at] in s;
      var j := IndexOf(s, '@');
      assert !IsWordChar(s[j]);
      assert j == at;
      var domain := s[at + 1..];
      assert forall m | 0 <= m < |domain| :: domain[m] == s[at + 1 + m];
      assert '@' !in domain;
      var inner := domain[1..|domain| - 1];
      assert inner[dot - at - 2] == '.';
      assert '.' in inner;
    }
  }

  /** The `.test` of the email pattern: true exactly for the strings it matches. */
  predicate IsValidEmail(s: string): (ok: bool)
    ensures ok <==> MatchesEmailPattern(s)
  {
    EmailCheckIsPattern(s);
    ScanEmail(s)
  }

  /** Every visible ASCII character other than `@` belongs to `[^\s@]`. */
  lemma PrintableAsciiIsWordChar(c: char)
    requires '!' <= c <= '~' && c != '@'
    ensures IsWordChar(c)
  {
  }

  lemma RejectsNoAt()
    ensures !IsValidEmail("notanemail")
  {
    var s := "notanemail";
    assert forall i | 0 <= i < |s| :: s[i] != '@';
  }

  lemma RejectsEmptyLocalPart()
    ensures !IsValidEmail("@example.com")
  {
  }

  lemma RejectsMissingDomain()
    ensures !IsValidEmail("test@")
  {
    var s := "test@";
    assert s[4] == '@' && s[..4] == "test";
    assert IndexOf(s, '@') == 4;
  }

  lemma AcceptsPlusTag(s: string)
    requires s == "test+tag@example.com"
    ensures IsValidEmail(s)
  {
    assert forall i | 0 <= i < |s| :: '!' <= s[i] <= '~';
    assert forall i | 0 <= i < |s| && i != 8 :: s[i] != '@';
    forall i | 0 <= i < |s| && i != 8 ensures IsWordChar(s[i]) {
      PrintableAsciiIsWordChar(s[i]);
    }
    assert EmailSplit(s, 8, 16);
    EmailCheckIsPattern(s);
  }

  /**
   * JavaScript's `length`: the number of UTF-16 code units, so a character
   * outside the Basic Multilingual Plane counts twice.
   */
  function Utf16Length(s: string): (n: nat)
    ensures |s| <= n <= 2 * |s|
  {
    if s == [] then 0
    else (if s[0] as int >= 0x10000 then 2 else 1) + Utf16Length(s[1..])
  }

  /** For text within the Basic Multilingual Plane, `length` is the character count. */
  lemma {:induction false} Utf16LengthOfBmp(s: string)
    requires forall i | 0 <= i < |s| :: s[i] as int < 0x10000
    ensures Utf16Length(s) == |s|
  {
    if s != [] {
      assert forall i | 0 <= i < |s[1..]| :: s[1..][i] == s[i + 1];
      Utf16LengthOfBmp(s[1..]);
    }
  }

  /**
   * validate(): one message per failing field. Name and password are required;
   * a non-empty email must match the pattern and a non-empty password must be
   * at least 8 code units long; the confirmation is compared on its own.
   */
  function Validate(form: FormData): (errs: Errors)
    ensures errs.Keys <= {"name", "email", "password", "confirmPassword"}
    ensures "name" in errs <==> form.name == ""
    ensures "email" in errs <==> !IsValidEmail(form.email)
    ensures "password" in errs <==> Utf16Length(form.password) < MinPasswordLength
    ensures "confirmPassword" in errs <==> form.password != form.confirmPassword
    ensures "name" in errs ==> errs["name"] == NameRequired
    ensures "email" in errs ==> errs["email"] == if form.email == "" then EmailRequired else EmailInvalid
    ensures "password" in errs ==>
      errs["password"] == if form.password == "" then PasswordRequired else PasswordTooShort
    ensures "confirmPassword" in errs ==> errs["confirmPassword"] == PasswordsDiffer
    ensures errs == map[] <==>
      && form.name != ""
      && IsValidEmail(form.email)
      && Utf16Length(form.password) >= MinPasswordLength
      && form.password == form.confirmPassword
  {
    var afterName: Errors :=
      if form.name == "" then map["name" := NameRequired] else map[];
    var afterEmail :=
      if form.email == "" then afterName["email" := EmailRequired]
      else if !IsValidEmail(form.email) then afterName["email" := EmailInvalid]
      else afterName;
    var afterPassword :=
      if form.password == "" then afterEmail["password" := PasswordRequired]
      else if Utf16Length(form.password) < MinPasswordLength then afterEmail["password" := PasswordTooShort]
      else afterEmail;
    if form.password != form.confirmPassword then afterPassword["confirmPassword" := PasswordsDiffer]
    else afterPassword
  }

  /** For a password within the Basic Multilingual Plane, 7 characters fail and 8 pass. */
  lemma PasswordBoundary(form: FormData)
    requires forall i | 0 <= i < |form.password| :: form.password[i] as int < 0x10000
    ensures |form.password| == 7 ==> "password" in Validate(form) && Validate(form)["password"] == PasswordTooShort
    ensures |form.password| == 8 ==> "password" !in Validate(form)
  {
    Utf16LengthOfBmp(form.password);
  }

  /** What a submission does after validation: show the errors, or post the three fields. */
  datatype SubmitStep = ShowErrors(errors: Errors) | PostRegistration(name: string, email: string, password: string)

  /**
   * The first half of handleSubmit: the request is sent only when validation
   * found nothing, and it carries the name, email and password but not the
   * confirmation.
   */
  function BeginSubmit(form: FormData): (step: SubmitStep)
    ensures step.PostRegistration? <==> Validate(form) == map[]
    ensures step.ShowErrors? ==> step.errors == Validate(form) && step.errors != map[]
    ensures step.PostRegistration? ==>
      step.name == form.name && step.email == form.email && step.password == form.password
  {
    var errs := Validate(form);
    if |errs| > 0 then ShowErrors(errs) else PostRegistration(form.name, form.email, form.password)
  }

  /** One entry of the server's `errors` list. */
  datatype ServerError = ServerError(field: string, message: string)

  /**
   * The JSON body of a failed reply. `None` is a member that is absent or null;
   * JavaScript treats any array as true, even an empty one.
   */
  datatype ErrorBody = ErrorBody(errors: Option<seq<ServerError>>, error: Option<string>)

  /** The field-to-message map built left to right, later entries winning. */
  function FieldMessages(list: seq<ServerError>): (m: Errors)
    ensures m.Keys == set e | e in list :: e.field
  {
    if list == [] then map[]
    else
      var last := list[|list| - 1];
      FieldMessages(list[..|list| - 1])[last.field := last.message]
  }

  /** Each field ends up with the message of its last entry in the list. */
  lemma {:induction false} FieldMessagesLastWins(list: seq<ServerError>, i: nat)
    requires i < |list|
    requires forall j | i < j < |list| :: list[j].field != list[i].field
    ensures list[i].field in FieldMessages(list)
    ensures FieldMessages(list)[list[i].field] == list[i].message
  {
    if i < |list| - 1 {
      var prefix := list[..|list| - 1];
      assert forall j | i < j < |prefix| :: prefix[j] == list[j];
      FieldMessagesLastWins(prefix, i);
    }
  }

  /** The forEach of handleSubmit that copies each `{field, message}` into `errorObj`. */
  method CollectFieldErrors(list: seq<ServerError>) returns (errorObj: Errors)
    ensures errorObj == FieldMessages(list)
  {
    errorObj := map[];
    var i := 0;
    while i < |list|
      invariant 0 <= i <= |list|
      invariant errorObj == FieldMessages(list[..i])
    {
      assert list[..i + 1][..i] == list[..i];
      errorObj := errorObj[list[i].field := list[i].message];
      i := i + 1;
    }
    assert list[..|list|] == list;
  }

  /**
   * How a submission ended after the request was sent. `NetworkFailure`
   * stands for any exception inside the `try` block: a transport failure, but
   * also a reply whose body is not JSON, since that is parsed before the
   * status is looked at.
   */
  datatype Reply = NetworkFailure | Failed(body: ErrorBody) | Registered

  /**
   * The errors handleSubmit shows once the request has been answered: the
   * server's list mapped field by field, otherwise the server's error (when it
   * is a non-empty string) or "Registration failed" under "general"; a
   * network failure shows its own general message; success clears them.
   */
  method ErrorsAfterReply(reply: Reply) returns (errors: Errors)
    ensures reply.Registered? ==> errors == map[]
    ensures reply.NetworkFailure? ==> errors == map["general" := NetworkError]
    ensures reply.Failed? && reply.body.errors.Some? ==> errors == FieldMessages(reply.body.errors.value)
    ensures reply.Failed? && reply.body.errors.None? ==>
      && errors.Keys == {"general"}
      && errors["general"] == (if reply.body.error.Some? && reply.body.error.value != ""
                               then reply.body.error.value else RegistrationFailed)
  {
    match reply
    case Registered =>
      errors := map[];
    case NetworkFailure =>
      errors := map["general" := NetworkError];
    case Failed(body) =>
      if body.errors.Some? {
        errors := CollectFieldErrors(body.errors.value);
      } else {
        var message := body.error.GetOr("");
        errors := map["general" := if message != "" then message else RegistrationFailed];
      }
  }

  /** The page's state: the form's values and the errors on display. */
  datatype PageState = PageState(form: FormData, errors: Errors)

  /** JavaScript's truthiness of `errors[key]`: present and not the empty string. */
  predicate HasError(errors: Errors, key: string): (showing: bool)
    ensures showing ==> key in errors
    ensures showing <==> key in errors && |errors[key]| > 0
  {
    key in errors && errors[key] != ""
  }

  function SetField(form: FormData, f: Field, value: string): FormData {
    match f
    case Name => form.(name := value)
    case Email => form.(email := value)
    case Password => form.(password := value)
    case ConfirmPassword => form.(confirmPassword := value)
  }

  /**
   * handleChange: the edited input takes the new value, and its error, if
   * one is showing, is blanked. Every other input and every other error stays.
   */
  function HandleChange(st: PageState, f: Field, value: string): (r: PageState)
    ensures Get(r.form, f) == value
    ensures forall g :: g != f ==> Get(r.form, g) == Get(st.form, g)
    ensures !HasError(r.errors, Key(f))
    ensures r.errors - {Key(f)} == st.errors - {Key(f)}
    ensures HasError(st.errors, Key(f)) ==> Key(f) in r.errors && r.errors[Key(f)] == ""
    ensures !HasError(st.errors, Key(f)) ==> r.errors == st.errors
  {
    var key := Key(f);
    var errors := if HasError(st.errors, key) then st.errors[key := ""] else st.errors;
    PageState(SetField(st.form, f, value), errors)
  }

  /** Typing the same value twice has the effect of typing it once. */
  lemma HandleChangeIdempotent(st: PageState, f: Field, value: string)
    ensures HandleChange(HandleChange(st, f, value), f, value) == HandleChange(st, f, value)
  {
  }
}

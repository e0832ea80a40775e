/**
 * The two zod schemas of the authentication controller, `registerSchema` and
 * `loginSchema`. Parsing either one yields the trimmed fields or the list of
 * every issue found: zod runs all the checks of every field (none of them is
 * fatal) except that a field which is not a string gets a single type issue.
 */
module Validation {
  import opened JsText

  datatype Result<T, E> = Ok(value: T) | Err(error: E)

  /** The parsed JSON request body, as far as the schemas can tell values apart.
      `JOther` stands for a number, boolean, null or array, named as zod names
      the received type. */
  datatype Json =
    | Undefined
    | JString(s: string)
    | JObject(fields: map<string, Json>)
    | JOther(typeName: string)

  /** One zod issue: the path to the offending field and its message. */
  datatype Issue = Issue(path: seq<string>, message: string)

  datatype Registration = Registration(firstName: string, lastName: string, email: string, password: string)
  datatype Credentials = Credentials(email: string, password: string)

  /** The property `key` of an object body; a missing property reads as `undefined`. */
  function Member(body: Json, key: string): Json {
    if body.JObject? && key in body.fields then body.fields[key] else Undefined
  }

  function TypeName(v: Json): string {
    match v
    case Undefined => "undefined"
    case JString(_) => "string"
    case JObject(_) => "object"
    case JOther(t) => t
  }

  /** zod's message for a value of the wrong type. */
  function TypeMessage(expected: string, v: Json): string {
    if v.Undefined? then "Required" else "Expected " + expected + ", received " + TypeName(v)
  }

  // ---------------------------------------------------------------------------
  // The character classes of the three password regexes

  datatype CharClass = Upper | Digit | Special

  predicate InClass(c: char, cls: CharClass) {
    match cls
    case Upper => 'A' <= c <= 'Z'
    case Digit => '0' <= c <= '9'
    case Special => c in "@$!%*?&#"
  }

  /** `/[...]/.test(s)`: scans `s` for a character of the class. */
  function Matches(s: string, cls: CharClass): (b: bool)
    ensures b <==> exists i :: 0 <= i < |s| && InClass(s[i], cls)
  {
    if s == [] then false
    else if InClass(s[0], cls) then true
    else
      var b := Matches(s[1..], cls);
      assert forall i :: 1 <= i < |s| ==> s[i] == s[1..][i - 1];
      b
  }

  // ---------------------------------------------------------------------------
  // The rules, stated as what an accepted (already trimmed) value looks like

  predicate NameAccepted(t: string) {
    1 <= Utf16Length(t) <= 50
  }

  predicate PasswordAccepted(t: string) {
    && Utf16Length(t) >= 8
    && (exists i :: 0 <= i < |t| && 'A' <= t[i] <= 'Z')
    && (exists i :: 0 <= i < |t| && '0' <= t[i] <= '9')
    && (exists i :: 0 <= i < |t| && t[i] in "@$!%*?&#")
  }

  // ---------------------------------------------------------------------------
  // The checks, in the order the schemas list them

  datatype Rule = NameRule(required: string, tooLong: string) | EmailRule | PasswordRule

  predicate RuleAccepts(rule: Rule, validEmail: string -> bool, t: string) {
    match rule
    case NameRule(_, _) => NameAccepted(t)
    case EmailRule => validEmail(t)
    case PasswordRule => PasswordAccepted(t)
  }

  /** The messages of the checks of `rule` that the trimmed value `t` fails:
      none exactly when `t` meets the rule. */
  function RuleMessages(rule: Rule, validEmail: string -> bool, t: string): (r: seq<string>)
    ensures r == [] <==> RuleAccepts(rule, validEmail, t)
  {
    match rule
    case NameRule(required, tooLong) =>
      (if Utf16Length(t) < 1 then [required] else [])
      + (if Utf16Length(t) > 50 then [tooLong] else [])
    case EmailRule =>
      if validEmail(t) then [] else ["Invalid email address"]
    case PasswordRule =>
      var upper, digit, special := Matches(t, Upper), Matches(t, Digit), Matches(t, Special);
      assert PasswordAccepted(t) <==> Utf16Length(t) >= 8 && upper && digit && special;
      (if Utf16Length(t) < 8 then ["Password must be at least 8 characters long"] else [])
      + (if upper then [] else ["Password must contain at least one uppercase letter"])
      + (if digit then [] else ["Password must contain at least one number"])
      + (if special then [] else ["Password must contain at least one special character"])
  }


  /** What `z.string().trim()` followed by the checks of `rule` accepts. */
  predicate FieldAccepted(v: Json, rule: Rule, validEmail: string -> bool) {
    v.JString? && RuleAccepts(rule, validEmail, Trim(v.s))
  }

  /** `z.string().trim()` followed by the checks of `rule`, on property `key`. */
  function ParseField(key: string, v: Json, rule: Rule, validEmail: string -> bool): (r: Result<string, seq<Issue>>)
    ensures r.Ok? <==> FieldAccepted(v, rule, validEmail)
    ensures r.Ok? ==> r.value == Trim(v.s)
    ensures r.Err? ==> |r.error| > 0
  {
    match v
    case JString(s) =>
      var t := Trim(s);
      var messages := RuleMessages(rule, validEmail, t);
      if messages == [] then Ok(t)
      else Err(seq(|messages|, i requires 0 <= i < |messages| => Issue([key], messages[i])))
    case _ =>
      Err([Issue([key], TypeMessage("string", v))])
  }

  function IssuesOf(r: Result<string, seq<Issue>>): seq<Issue> {
    if r.Err? then r.error else []
  }

  const FirstNameRule := NameRule("Firstname is required", "Firstname is too long")
  const LastNameRule := NameRule("Lastname is required", "Lastname is too long")

  /** What `registerSchema` accepts: an object whose four properties are strings
      that pass their rules once trimmed. */
  predicate RegisterAccepted(body: Json, validEmail: string -> bool) {
    && body.JObject?
    && FieldAccepted(Member(body, "firstName"), FirstNameRule, validEmail)
    && FieldAccepted(Member(body, "lastName"), LastNameRule, validEmail)
    && FieldAccepted(Member(body, "email"), EmailRule, validEmail)
    && FieldAccepted(Member(body, "password"), PasswordRule, validEmail)
  }

  /** What `loginSchema` accepts: the same email and password rules, alone. */
  predicate LoginAccepted(body: Json, validEmail: string -> bool) {
    && body.JObject?
    && FieldAccepted(Member(body, "email"), EmailRule, validEmail)
    && FieldAccepted(Member(body, "password"), PasswordRule, validEmail)
  }

  /** `registerSchema.parse(body)`: the trimmed fields, or every issue found. */
  function ValidateRegister(body: Json, validEmail: string -> bool): (r: Result<Registration, seq<Issue>>)
    ensures r.Ok? <==> RegisterAccepted(body, validEmail)
    ensures r.Ok? ==> r.value == Registration(
      Trim(Member(body, "firstName").s), Trim(Member(body, "lastName").s),
      Trim(Member(body, "email").s), Trim(Member(body, "password").s))
    ensures r.Err? ==> |r.error| > 0
  {
    if !body.JObject? then Err([Issue([], TypeMessage("object", body))])
    else
      var first := ParseField("firstName", Member(body, "firstName"), FirstNameRule, validEmail);
      var last := ParseField("lastName", Member(body, "lastName"), LastNameRule, validEmail);
      var email := ParseField("email", Member(body, "email"), EmailRule, validEmail);
      var password := ParseField("password", Member(body, "password"), PasswordRule, validEmail);
      if first.Ok? && last.Ok? && email.Ok? && password.Ok? then
        Ok(Registration(first.value, last.value, email.value, password.value))
      else
        Err(IssuesOf(first) + IssuesOf(last) + IssuesOf(email) + IssuesOf(password))
  }

  /** `loginSchema.parse(body)`: the trimmed credentials, or every issue found. */
  function ValidateLogin(body: Json, validEmail: string -> bool): (r: Result<Credentials, seq<Issue>>)
    ensures r.Ok? <==> LoginAccepted(body, validEmail)
    ensures r.Ok? ==> r.value == Credentials(Trim(Member(body, "email").s), Trim(Member(body, "password").s))
    ensures r.Err? ==> |r.error| > 0
  {
    if !body.JObject? then Err([Issue([], TypeMessage("object", body))])
    else
      var email := ParseField("email", Member(body, "email"), EmailRule, validEmail);
      var password := ParseField("password", Member(body, "password"), PasswordRule, validEmail);
      if email.Ok? && password.Ok? then
        Ok(Credentials(email.value, password.value))
      else
        Err(IssuesOf(email) + IssuesOf(password))
  }

  // ---------------------------------------------------------------------------
  // Properties of the two schemas

  /** A name made only of whitespace (or empty) is rejected, whatever else the
      body holds. */
  lemma BlankNameRejected(body: Json, validEmail: string -> bool, key: string)
    requires key == "firstName" || key == "lastName"
    requires Member(body, key).JString? && AllWhitespace(Member(body, key).s)
    ensures ValidateRegister(body, validEmail).Err?
  {
    TrimEmptyIffAllWhitespace(Member(body, key).s);
  }

  /** A password whose trimmed form breaks a rule is rejected at both endpoints. */
  lemma WeakPasswordRejected(body: Json, validEmail: string -> bool)
    requires Member(body, "password").JString?
    requires !PasswordAccepted(Trim(Member(body, "password").s))
    ensures ValidateRegister(body, validEmail).Err?
    ensures ValidateLogin(body, validEmail).Err?
  {
  }

  /** The login schema asks nothing the register schema did not: a body that
      registers also passes login validation, with the same trimmed email and
      password. */
  lemma RegisterBodyPassesLogin(body: Json, validEmail: string -> bool)
    requires ValidateRegister(body, validEmail).Ok?
    ensures ValidateLogin(body, validEmail).Ok?
    ensures ValidateLogin(body, validEmail).value.email == ValidateRegister(body, validEmail).value.email
    ensures ValidateLogin(body, validEmail).value.password == ValidateRegister(body, validEmail).value.password
  {
  }

  /** Leading and trailing whitespace around the password never changes the
      verdict: the rules see the trimmed value. */
  lemma PasswordPaddingIgnored(pre: string, p: string, post: string)
    requires AllWhitespace(pre) && AllWhitespace(post)
    ensures PasswordAccepted(Trim(pre + p + post)) <==> PasswordAccepted(Trim(p))
  {
    TrimPadding(pre, p, post);
  }
}

# Course-selling app: authentication controller

A Dafny model of the sign-up / sign-in controller of the course-selling
backend (`Backend/controller/authController.js`). It covers two things.

- **Input validation.** The two zod schemas (`registerSchema`, `loginSchema`) decide which bodies are accepted.
  - Each field is first trimmed with JavaScript's `String.prototype.trim`.
  - Names must then be 1 to 50 characters long.
  - The e-mail must pass zod's e-mail check.
  - The password needs at least 8 characters, with an upper-case letter `A-Z`, a digit `0-9` and one of `@$!%*?&#`.
  - Lengths are JavaScript lengths, counted in UTF-16 code units.
  - A rejected body produces the full list of zod issues, in the order zod finds them.
- **The two handlers.** They form a small state machine over the user collection. The collection is keyed by the exact e-mail address.
  - `register` answers in this order: 402 for an existing user, 404 when the role `user` is missing, otherwise 201 after inserting exactly one document.
  - `login` answers 404 for an unknown e-mail, 401 for a wrong password, otherwise 200 with the token stored at sign-up. It never mints a new token.
  - When validation throws, the exception is only logged, so neither handler sends any response.

Modules:

- `JsText.dfy` (module `JsText`): the whitespace set of ECMAScript, `trim` and the
  UTF-16 `length`, with the lemmas that characterise `trim`.
- `Validation.dfy` (module `Validation`): the JSON body, zod issues, the field
  rules and the two schemas.
- `Auth.dfy` (module `Auth`): the documents, the responses, the class
  `AuthController` that holds the user collection as a `map` field and whose
  methods `Register` and `Login` are the two handlers, and three client methods
  that chain requests.

The code the controller calls but that is not modelled is passed in through a
`Config` value:

- `bcrypt.hash` and `bcrypt.compare`;
- `jwt.sign` with the process secret;
- zod's e-mail regular expression;
- the default `avatarURL` of the user schema.

Two facts about bcrypt are stated as predicates and required only where they are
used. `HashSound` says a hash accepts its own password. `HashBinding` says it
accepts no other password. bcrypt draws a random salt on every call; here the
salt is a parameter of `Register`. So is `now`, the clock reading that `jwt.sign`
puts into the token as its `iat` claim.

## Model

| member | source | states |
|---|---|---|
| `JsText.Trim` | web-dev/Week-8/course-selling-app/Backend/controller/authController.js:12-15 | `trim` as zod's `.trim()` applies it: it only removes characters. `TrimShape` and `TrimUnique` below pin it down completely: it strips exactly the maximal whitespace prefix and suffix. |
| `JsText.Utf16Length` | web-dev/Week-8/course-selling-app/Backend/controller/authController.js:12-16 | The length that zod's `.min`/`.max` compare lies between the number of characters and twice that number. |
| `JsText.Utf16LengthAppend` | web-dev/Week-8/course-selling-app/Backend/controller/authController.js:12-16 | The JavaScript length of a concatenation is the sum of the lengths. |
| `JsText.TrimStartShape` | web-dev/Week-8/course-selling-app/Backend/controller/authController.js:12-15 | Trimming the start drops only whitespace, and the kept suffix is empty or begins with a non-whitespace character. |
| `JsText.TrimEndShape` | web-dev/Week-8/course-selling-app/Backend/controller/authController.js:12-15 | Trimming the end drops only whitespace, and the kept prefix is empty or ends with a non-whitespace character. |
| `JsText.TrimShape` | web-dev/Week-8/course-selling-app/Backend/controller/authController.js:12-15 | The input is whitespace, then the trimmed string, then whitespace. The trimmed string has no whitespace at either end. |
| `JsText.TrimUnique` | web-dev/Week-8/course-selling-app/Backend/controller/authController.js:12-15 | Trimming whitespace + t + whitespace gives exactly t, when t has no whitespace at its edges. |
| `JsText.TrimEmptyIffAllWhitespace` | web-dev/Week-8/course-selling-app/Backend/controller/authController.js:12-13 | `trim` returns the empty string exactly when the input is all whitespace. |
| `JsText.TrimIdempotent` | web-dev/Week-8/course-selling-app/Backend/controller/authController.js:91-92 | Trimming twice gives the same result as trimming once. |
| `JsText.TrimPadding` | web-dev/Week-8/course-selling-app/Backend/controller/authController.js:91-92 | Adding whitespace on either side does not change the trimmed value. |
| `Validation.Matches` | web-dev/Week-8/course-selling-app/Backend/controller/authController.js:17-19 | Each of the regex tests `/[A-Z]/`, `/[0-9]/` and `/[@$!%*?&#]/` is true exactly when some character of the string is in that class. |
| `Validation.RuleMessages` | web-dev/Week-8/course-selling-app/Backend/controller/authController.js:12-19 | The ordered checks of a field and their messages. A trimmed value gets no issue messages exactly when it meets its rule. For a name: length 1..50. For the e-mail: the e-mail check. For the password: length at least 8, with an upper-case letter, a digit and a special character. |
| `Validation.ParseField` | web-dev/Week-8/course-selling-app/Backend/controller/authController.js:12-19 | A field is accepted exactly when it is a string whose trimmed value meets its rule. The value returned is the trimmed string. A rejected field gets at least one issue. |
| `Validation.ValidateRegister` | web-dev/Week-8/course-selling-app/Backend/controller/authController.js:11-20 | `registerSchema.parse` accepts exactly the objects whose four fields pass their rules after trimming. It returns the four trimmed values. A rejection carries a non-empty issue list. |
| `Validation.ValidateLogin` | web-dev/Week-8/course-selling-app/Backend/controller/authController.js:89-97 | `loginSchema.parse` accepts exactly the objects whose e-mail and password pass the same rules as at sign-up. It returns the trimmed pair. A rejection carries a non-empty issue list. |
| `Validation.BlankNameRejected` | web-dev/Week-8/course-selling-app/Backend/controller/authController.js:12-13 | An empty or whitespace-only first or last name is rejected. |
| `Validation.WeakPasswordRejected` | web-dev/Week-8/course-selling-app/Backend/controller/authController.js:15-19 | A password that breaks any rule after trimming is rejected at both sign-up and sign-in. |
| `Validation.RegisterBodyPassesLogin` | web-dev/Week-8/course-selling-app/Backend/controller/authController.js:89-97 | A body accepted at sign-up is also accepted at sign-in, with the same trimmed e-mail and password. |
| `Validation.PasswordPaddingIgnored` | web-dev/Week-8/course-selling-app/Backend/controller/authController.js:92-96 | Leading or trailing whitespace never changes whether a password is accepted. |
| `Auth.View` | web-dev/Week-8/course-selling-app/Backend/controller/authController.js:59-68 | The user view holds exactly first name, last name, e-mail, avatarURL and role id. It has no password. |
| `Auth.CreatedResponse` | web-dev/Week-8/course-selling-app/Backend/controller/authController.js:71-75 | 201 carries the document's view, which has no password, and the document's stored token as `auth`. |
| `Auth.LoggedInResponse` | web-dev/Week-8/course-selling-app/Backend/controller/authController.js:117-126 | 200 carries the document's view, which has no password, and the document's stored token, not a new one. |
| `Auth.NewUser` | web-dev/Week-8/course-selling-app/Backend/controller/authController.js:41-53 | The created document holds the trimmed names and e-mail, the hash of the trimmed password, the role id, and the token signed over e-mail, role id and names at the moment of the call. |
| `Auth.StoredHashAcceptsOnlyItsPassword` | web-dev/Week-8/course-selling-app/Backend/controller/authController.js:108 | The stored hash accepts the registered password. With a binding hash, it accepts that password and no other. |
| `Auth.AuthController.Register` | web-dev/Week-8/course-selling-app/Backend/controller/authController.js:22-86 | See the list below the table. |
| `Auth.AuthController.Login` | web-dev/Week-8/course-selling-app/Backend/controller/authController.js:99-133 | See the list below the table. |
| `Auth.RegisterThenLogin` | web-dev/Week-8/course-selling-app/Backend/controller/authController.js:114-126 | After a successful sign-up, signing in with the same body returns 200 with the same token and user view that the sign-up returned. |
| `Auth.RegisterTwice` | web-dev/Week-8/course-selling-app/Backend/controller/authController.js:27-34 | A second sign-up with the same e-mail gets 402 and changes nothing: the store is exactly what the first attempt left, either unchanged or with that attempt's document under the e-mail. |
| `Auth.RegisterThenWrongPassword` | web-dev/Week-8/course-selling-app/Backend/controller/authController.js:108-112 | After sign-up, a sign-in with a different trimmed password gets 401. This needs a binding hash. The refused sign-in leaves the store holding just the new document. |

`Auth.AuthController.Register` states:

- A body that fails validation gets no response, and the store is unchanged.
- A known e-mail gets 402. This is checked before the role, and the store is unchanged.
- A missing `user` role gets 404, and the store is unchanged.
- Otherwise exactly one new document goes in under the e-mail, and the response is 201 with `auth` equal to the stored token.
- The store changes exactly when 201 is sent.
- No existing document is changed.
- Keys stay equal to e-mails, and stored tokens stay signatures of their documents' claims.

`Auth.AuthController.Login` states:

- A body that fails validation gets no response.
- An unknown e-mail gets 404 "Email or password is wrong".
- A hash that rejects the password gets 401 "Email or password is invalid".
- Otherwise the response is 200 with the stored token and the view.
- 200 only ever carries the stored token of a user whose hash accepted the password. That user has the e-mail asked for, because keys equal e-mails.
- The method has no `modifies` clause, so the store is unchanged.

## Left out

- `Backend/index.js`, `Backend/config/db.js` and `Backend/routes/authRoute.js` are not part of this model. They hold the Express bootstrap, the database connection and the two-route table.
- The user and role schemas (`models/userModel`, `models/roleModel`) are not part of this model. The model assumes the following:
  - e-mails are stored exactly as given, with no lower-casing;
  - the only default the schema adds is `avatarURL`, taken from `Config`;
  - `_id`, timestamps and a database-level unique index are not modelled.
- bcrypt, jsonwebtoken and zod's e-mail regular expression are foreign code, passed in as functions.
  - bcrypt's salt generation, its cost factor of 10 and its 72-byte truncation are not modelled.
  - `HashBinding`, "no other password matches", is an idealisation of bcrypt. It is used only by `StoredHashAcceptsOnlyItsPassword` and `RegisterThenWrongPassword`.
- A rejection from `findOne`, `create`, `bcrypt` or `jwt.sign` is not modelled. In the source it would also be only logged. Each handler assumes its collaborators succeed.
- Each handler runs as one atomic step. The race between `User.findOne` and `User.create` under concurrent sign-ups is outside a sequential model.
- A JSON body can carry a lone UTF-16 surrogate (`"\uD800"`), a JavaScript string of length 1. A Dafny `string` holds Unicode scalar values only, so such inputs are outside the model.
- zod's type-error message names the received type. `JOther` carries that name as a plain string, and the JSON parser behind it is not modelled.
- `console.log` of the exception, the HTTP transport, and JSON serialisation are not modelled. JSON serialisation drops an undefined `avatarURL`; here it stays `None`.

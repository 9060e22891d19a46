# LLM-tutor in Dafny

A model of the core of LLM-tutor, an English-conversation tutor. It has a
Rails API backend and a React frontend. Members buy memberships, which
unlock features and carry chat coupons. Opening a chat session costs one
coupon. The backend relays the conversation to Google's Gemini API, and can
stream the answer back as server-sent events (a subset of the format in
section 9.2 of the HTML Living Standard).

The model covers, module by module:

- **Backend relay** (`GeminiClient`): the request payload, reading the
  answer text, and the incremental frame parser of a streamed answer
  (a method with a loop over the received chunks). It also covers the
  retry loop on the client's `@model` field: at most three attempts, a
  back-off, and a one-time switch to the lite model.
- **Chat endpoints** (`ChatController`):
  - `message`, with its last-four-turns history;
  - `message_stream`, whose event log is a class that the relay appends to
    and always closes;
  - `start`, the coupon-spending gate, which uses a five-minute
    idempotency cache (a class).
- **Entitlements and coupons**:
  - the user and membership records and their validations (`UserModel`,
    `MembershipModel`);
  - the coupon policy read from the environment (`MembershipPolicy`);
  - the user, payment, membership and auth endpoints (`UsersController`,
    `PaymentsController`, `MembershipsController`, `AuthController`);
  - the mock card gateway (`PgMockClient`), the serializers, and the
    error payload (`ApplicationController`).

  The two database tables are the class `Store.Db`, which keeps its
  referential invariant.
- **Authentication** (`Authenticatable`): the bearer token taken from the
  `Authorization` header, loosely the form of section 2.1 of RFC 6750. The
  scheme prefix is case-sensitive. The token's claims are those of a JSON
  Web Token (RFC 7519).
- **Frontend**:
  - the event-stream reader of `sendMessageStream` and the key choice of
    `startChatSession` (`ChatService`);
  - `splitByLanguage` (`UseTTS`);
  - the send guards, message-list updates and session entry of the chat
    page (`ChatPage.Page`, a class for the page's state);
  - the sign-up and sign-in form checks (`FormValidation`).

Clocks, random values, the network, JSON parsing and JWT signing are
parameters: an oracle function or a value passed in. Each module's header
comment says which.

Behaviour of the code worth knowing:

- When the buffered fallback of `message_stream` fails too, the code writes
  two `error` events, not one. The first is the overload message and the
  second the general error. See `ChatController.RelayFailsTwice`.
- The switch to the lite model is stored in the client's `@model` field. The
  buffered fallback of `message_stream` therefore runs on the model the
  streaming call ended on (`ChatController.Relay`).
- Whether a failure is retried is decided from its message text alone. A
  failed request's message is the error message in the response body, or
  else the HTTP reason phrase, and neither has to quote the status code.
  An error body of an unexpected shape makes the message lookup itself
  raise, and then Ruby's own message decides (`GeminiClient.ErrorBodyDigRaises`).
  A server error reported as "Internal error encountered." is therefore
  not retried (`GeminiClient.InternalErrorNotRetried`).
- Only parse errors are rescued inside the stream reader. A frame that parses
  but has another shape can make `dig` or `empty?` raise: a list as payload,
  or a number as text. The streaming attempt then fails with that exception
  instead of skipping the frame (`GeminiClient.ListFrameAborts`,
  `GeminiClient.NumberTextAborts`). A `NoMethodError` of this kind is not
  retried (`GeminiClient.NoMethodNotRetried`).
- `DEFAULT_MODEL` equals `LITE_MODEL`, so with the default configuration
  the fallback to the lite model never happens
  (`GeminiClient.DefaultModelNeverFallsBack`).
- The idempotency check of `start` reads the cache and then writes it in a
  separate step. It also runs after the coupon check, so a repeated key at
  zero coupons is refused with 403. Whether a repeated key is charged again
  depends on the cache store. A store that keeps nothing charges twice
  (`ChatController.NullCacheChargesTwice`).

## Model

| member | source | states |
|---|---|---|
| ApplicationController.RenderError | backend/app/controllers/application_controller.rb:9-13 | the body always carries `error` with the message, carries `details` exactly when the details are present (and then unchanged), holds no other key, and the status is the one passed (400 by default) |
| ApplicationController.RenderErrorDefaults | backend/app/controllers/application_controller.rb:9-13 | with no details and no status the response is exactly 400 with `{error}` |
| ApplicationController.RenderNotFound | backend/app/controllers/application_controller.rb:15-17 | a missing record is answered 404 with the fixed "resource not found" message and the exception text as details |
| ApplicationController.RenderUnprocessable | backend/app/controllers/application_controller.rb:19-21 | a missing parameter is answered 422 with the fixed "bad parameters" message and the exception text as details |
| Json.StrArr | backend/app/serializers/membership_serializer.rb:10 | a list of strings becomes a JSON array of the same length holding each string at the same position |
| MembershipModel.FeaturesArrayTrimmed | backend/app/models/membership.rb:23-25 | no element of `features_array` begins or ends with whitespace |
| MembershipModel.FeaturesArrayTrims | backend/app/models/membership.rb:23-25 | a list written "a, b, c" reads back as exactly the three names a, b and c |
| MembershipModel.SplitThree | backend/app/models/membership.rb:24 | cutting "a, b, c" at its commas yields a, " b" and " c" (the spaces are kept until trimming) |
| MembershipModel.MapTrimThree | backend/app/models/membership.rb:24 | `map(&:strip)` trims each element in place and keeps the order |
| MembershipModel.TrimLeadingSpace | backend/app/models/membership.rb:24 | stripping a feature name preceded by the space after a comma gives the name |
| MembershipModel.MembershipErrors | backend/app/models/membership.rb:4-33 | a membership is valid exactly when name, features and expiry are present, the coupon count is not sent as null and is at least 0 (left out it takes the default 0), and (on create only) the expiry is not in the past; a null coupon count fails both the presence and the number check |
| MembershipModel.CouponCountErrors | backend/app/models/membership.rb:7 | a coupon count left out passes, one sent as null fails both `presence` and `numericality`, and a number passes exactly when it is at least 0 |
| MembershipModel.Build | backend/app/models/membership.rb:4-15 | a membership saved from valid attributes is active at creation, keeps the name and features, has a non-negative coupon count (0 when none was given), and is created and updated at the current time |
| UserModel.UserHasFeature | backend/app/models/user.rb:10-16 | a user has a feature exactly when the user has a membership, it has not expired, and the feature is in its trimmed comma list |
| UserModel.HasFeatureImpliesValid | backend/app/models/user.rb:10-21 | any feature the user has implies `membership_valid?` |
| UserModel.ExpiryBoundary | backend/app/models/user.rb:10-21 | at the expiry instant both `has_feature?` and `membership_valid?` still hold; one second later neither does |
| UserModel.IndexOf | backend/app/models/user.rb:6 | the position found holds the searched character and no earlier position does (the length when absent) |
| UserModel.MailToEmailHasNoSpace | backend/app/models/user.rb:6 | an address the email format accepts contains no whitespace |
| UserModel.JoinKeepsLabelChars | backend/app/models/user.rb:6 | the dotted domain of an accepted address contains no whitespace |
| UserModel.UserErrors | backend/app/models/user.rb:2-7 | a user is valid exactly when the email is present, unique and well formed, and (on create) a non-blank password is present, and a password given is at most 72 characters |
| Store.MembershipOf | backend/app/models/user.rb:4 | `user.membership` is the stored membership the user's `membership_id` names, and nil when there is none |
| Store.ListsOnceLength | backend/app/controllers/api/v1/users_controller.rb:10 | a table scan that yields every id once yields as many rows as the table holds |
| Store.StoredEmailNotTaken | backend/app/models/user.rb:6 | in consistent tables no other user holds a stored user's email |
| Store.UpdateKeepsConsistent | backend/app/models/user.rb:4-6 | replacing a user row by one with the same id and email and an existing membership (or none) keeps rows keyed by id, memberships referenced existing and emails unique |
| Store.Db.constructor | backend/app/models/user.rb:4-6 | the tables start from consistent contents, unchanged |
| Serializers.MembershipAsJson | backend/app/serializers/membership_serializer.rb:4-14 | nil for no membership; otherwise exactly the keys id, name, features, expires_at and coupon_count, with the trimmed feature list and a nil coupon count shown as 0 |
| Serializers.SerializedFeaturesTrimmed | backend/app/serializers/membership_serializer.rb:10 | the serialized `features` is an array of strings none of which begins or ends with whitespace |
| Serializers.UserAsJson | backend/app/serializers/user_serializer.rb:4-13 | nil for no user; otherwise exactly id, email, chat_coupons (null when nil) and the membership serialized as above, null when the user has none |
| MembershipPolicy.StripUnderscores | backend/lib/membership_policy.rb:18 | the digits of a digit body with its underscores removed, which is all digits |
| MembershipPolicy.Unsigned | backend/lib/membership_policy.rb:18 | a value exactly when the text is a digit body (digits with single underscores between them) |
| MembershipPolicy.DropRadix | backend/lib/membership_policy.rb:18 | the text after an optional `0d`/`0D` prefix is a suffix of the input |
| MembershipPolicy.ParseNeedsDigit | backend/lib/membership_policy.rb:17-21 | text that `Integer(s, 10)` accepts holds a digit |
| MembershipPolicy.TrimKeepsChars | backend/lib/membership_policy.rb:18 | every character left after trimming occurs in the original text |
| MembershipPolicy.CouponCountFor | backend/lib/membership_policy.rb:6-15 | a name containing 베이직 reads `COUPON_BASIC`, else one containing 프리미엄 reads `COUPON_PREMIUM`, else `COUPON_DEFAULT`, a nil name counting as "" |
| MembershipPolicy.FetchDefaults | backend/lib/membership_policy.rb:9-13 | reading a variable with its default text "0" or "30" equals the parsed default used by the policy |
| MembershipPolicy.StripUnderscoresDigits | backend/lib/membership_policy.rb:18 | a plain digit string has no underscore to remove |
| MembershipPolicy.UnsignedDigits | backend/lib/membership_policy.rb:18 | a plain digit string is read as its decimal value |
| MembershipPolicy.ParseUntrimmed | backend/lib/membership_policy.rb:18 | text with no surrounding whitespace parses as it stands |
| MembershipPolicy.ParseTrimmedNat | backend/lib/membership_policy.rb:18 | the decimal rendering of a natural number parses to that number |
| MembershipPolicy.ParseNatString | backend/lib/membership_policy.rb:18 | the decimal rendering of a natural number parses to that number, trimming included |
| MembershipPolicy.EnvIntRoundTrip | backend/lib/membership_policy.rb:17-21 | `env_int` reads back every integer written in decimal, negative ones included |
| MembershipPolicy.ParseTrimmedNegative | backend/lib/membership_policy.rb:18 | a '-' before a digit string negates its value |
| MembershipPolicy.RadixFreeDigits | backend/lib/membership_policy.rb:18 | a digit string has no radix prefix to drop |
| MembershipPolicy.ParseTrimmedMinus | backend/lib/membership_policy.rb:18 | a leading '-' is read as the negation of what follows |
| MembershipPolicy.EnvIntWithoutDigits | backend/lib/membership_policy.rb:17-21 | a value without any digit, such as "" or "abc", is rescued to 0 |
| MembershipPolicy.EnvIntLiterals | backend/lib/membership_policy.rb:9-13 | the default texts "0" and "30" read as 0 and 30 |
| MembershipPolicy.DefaultPolicy | backend/lib/membership_policy.rb:6-15 | with no variable set the policy grants 0 for a basic plan, 30 for a premium plan and 0 otherwise |
| MembershipPolicy.NilNameIsDefault | backend/lib/membership_policy.rb:6-15 | a nil plan name falls to `COUPON_DEFAULT` |
| PgMockClient.NormalizeNumber | backend/lib/pg_mock_client.rb:22 | removing whitespace and dashes never lengthens the card number |
| PgMockClient.NormalizeNumberAppend | backend/lib/pg_mock_client.rb:22 | the removal works piece by piece: normalising a concatenation concatenates the normalised pieces |
| PgMockClient.NumberSeparatorsIgnored | backend/lib/pg_mock_client.rb:22 | digit groups joined by '-' or ' ' normalise to the digits alone |
| PgMockClient.NormalizeDigits | backend/lib/pg_mock_client.rb:22 | a plain digit string is left unchanged |
| PgMockClient.ValidateCard | backend/lib/pg_mock_client.rb:21-29 | a card passes exactly when the normalised number is 12 to 19 digits, some line of the expiry is `NN/NN` and some line of the CVV is 3 or 4 digits; a bad number is reported first, then a bad expiry, and the error is one of the three fixed messages |
| PgMockClient.MissingFieldsFail | backend/lib/pg_mock_client.rb:21-29 | a missing number, expiry or CVV reads as "" and makes the card fail (a missing number with "invalid card number") |
| PgMockClient.ExpiryOnLaterLinePasses | backend/lib/pg_mock_client.rb:27 | because `^` and `$` anchor lines, arbitrary text on a line before a valid expiry still passes |
| PgMockClient.HexDigit | backend/lib/pg_mock_client.rb:14 | each value below 16 is written as an uppercase hexadecimal digit |
| PgMockClient.HexUpper | backend/lib/pg_mock_client.rb:14 | `SecureRandom.hex(n).upcase` is twice as long as the bytes drawn and made of uppercase hex digits |
| PgMockClient.HexValue | backend/lib/pg_mock_client.rb:14 | reading an uppercase hex digit inverts `HexDigit` |
| PgMockClient.HexDecode | backend/lib/pg_mock_client.rb:14 | an even-length hex string decodes to half as many bytes |
| PgMockClient.HexRoundTrip | backend/lib/pg_mock_client.rb:14 | decoding the uppercase hex of any bytes gives the bytes back |
| PgMockClient.Charge | backend/lib/pg_mock_client.rb:12-17 | a card that fails validation is rejected with the validation message; otherwise the result has the given amount, status "completed" and an id of `PAY_` followed by 16 uppercase hex digits |
| PgMockClient.ChargeIdEncodesDraw | backend/lib/pg_mock_client.rb:14 | the payment id determines the random bytes drawn, so distinct draws give distinct ids |
| Authenticatable.ExtractToken | backend/app/controllers/concerns/authenticatable.rb:27-33 | a token exactly when the header is present, not blank and starts with the case-sensitive "Bearer "; the token is then the header's last whitespace-separated word |
| Authenticatable.BearerRoundTrip | backend/app/controllers/concerns/authenticatable.rb:27-33 | "Bearer " followed by a token without whitespace gives that token back |
| Authenticatable.BearerAloneIsItsOwnToken | backend/app/controllers/concerns/authenticatable.rb:32 | the header "Bearer " alone yields the word "Bearer" as the token |
| Authenticatable.LowercaseSchemeRejected | backend/app/controllers/concerns/authenticatable.rb:32 | a header starting with "bearer " gives no token |
| Authenticatable.Authenticate | backend/app/controllers/concerns/authenticatable.rb:6-21 | no token gives 401 "token required"; a token is accepted exactly when it decodes, has not expired and names a stored user, who becomes the current user; every other token gives 401 "invalid token" |
| Authenticatable.AdmittedId | backend/app/controllers/concerns/authenticatable.rb:15-17 | an admitted request runs as a stored user: the id is a key of the users table and names the user `Authenticate` admitted |
| Authenticatable.IssueClaims | backend/app/controllers/api/v1/auth_controller.rb:99-107 | the signed claims carry the user's id and email and expire exactly 24 hours after issue |
| Authenticatable.IssuedTokenAuthenticates | backend/app/controllers/api/v1/auth_controller.rb:99-107 | a token issued for a stored user authenticates that user for the following 24 hours |
| Authenticatable.ExpiredTokenRejected | backend/app/controllers/concerns/authenticatable.rb:14-20 | from the 24-hour mark on the same token is rejected as invalid |
| Authenticatable.Session.constructor | backend/app/controllers/concerns/authenticatable.rb:23-25 | a request starts with no current user and no response rendered |
| Authenticatable.Session.AuthenticateUser | backend/app/controllers/concerns/authenticatable.rb:6-21 | the filter sets `@current_user` to the authenticated user and renders nothing, or renders the 401 and leaves no current user |
| AuthController.UserResponse | backend/app/controllers/api/v1/auth_controller.rb:112-123 | exactly id, email and membership, the membership being `{id, name, features, expires_at}` with the raw features text, or null; the coupon balance is not included |
| AuthController.RegisterErrors | backend/app/controllers/api/v1/auth_controller.rb:10-13 | sign-up is refused exactly when a user validation fails or a non-blank password differs from a confirmation that was sent |
| AuthController.NewUser | backend/app/controllers/api/v1/auth_controller.rb:10-24 | the new row has the submitted email and password; with a trial plan it points at that plan and its balance is SET to the plan grant, whatever the plan's features; without one it has no plan and a nil balance |
| AuthController.Register | backend/app/controllers/api/v1/auth_controller.rb:8-39 | a missing `user` key is 422; a sign-up succeeds (201) exactly when validation passes, and only then is a row added, under the new id; a failed one is 422 with the messages and stores nothing |
| AuthController.RegisterKeepsConsistent | backend/app/controllers/api/v1/auth_controller.rb:8-39 | sign-up keeps rows keyed by id, memberships referenced existing and emails unique |
| AuthController.TrialGrantDefault | backend/app/controllers/api/v1/auth_controller.rb:20-21 | a trial plan whose own count is not positive falls back to the policy, which grants 0 with nothing overridden |
| AuthController.RegisterSetsWhereGrantAdds | backend/app/controllers/api/v1/auth_controller.rb:20-22 | sign-up gives a trial plan's coupons even without the chat feature, while the admin grant of the same plan leaves a nil balance nil |
| AuthController.Login | backend/app/controllers/api/v1/auth_controller.rb:43-57 | a missing `auth` key is 422; 200 exactly when a stored user has the email and the password matches, and then the answer is that user with a token; an unknown email and a wrong password get the same 401 |
| AuthController.RegisterThenLogin | backend/app/controllers/api/v1/auth_controller.rb:8-57 | whoever has just signed up can sign in with the same email and password |
| AuthController.RegisterUser | backend/app/controllers/api/v1/auth_controller.rb:8-39 | sign-up on the tables leaves the memberships alone, keeps the tables consistent and ends in the state and answer `Register` describes |
| PaymentsController.Paid | backend/app/controllers/api/v1/payments_controller.rb:35-41 | the paying user keeps id, email and password, points at the bought plan, and for a chat plan has the plan's own count (nil as 0) added to the balance (nil as 0); otherwise the balance is unchanged |
| PaymentsController.Create | backend/app/controllers/api/v1/payments_controller.rb:7-57 | a missing `payment` key is 422; no membership id is 400, an unknown one 404, a card the gateway rejects 422 with its message; 200 exactly when all checks pass, and only then is the user row replaced by the paid user |
| PaymentsController.GuardedCreate | backend/app/controllers/api/v1/payments_controller.rb:4 | behind `authenticate_user!`: a request without a valid token gets the 401 of `Authenticate` and nothing is charged or stored; the answer is 401 exactly when the token is refused; an admitted request pays for the user the token names |
| PaymentsController.PaidAgreesWithGrant | backend/app/controllers/api/v1/payments_controller.rb:38-41 | with a positive coupon count payment and the admin grant produce the same user |
| PaymentsController.PaidSkipsPolicy | backend/app/controllers/api/v1/payments_controller.rb:38-41 | with a count of 0 a premium chat plan bought adds nothing, while the admin grant with no overrides adds 30 |
| PaymentsController.ChatGrants | backend/app/controllers/api/v1/payments_controller.rb:38-41 | for a chat plan payment adds the plan's own count and the admin grant adds the policy-backed plan grant |
| PaymentsController.CreateKeepsConsistent | backend/app/controllers/api/v1/payments_controller.rb:7-57 | payment keeps the tables consistent |
| PaymentsController.CreatePayment | backend/app/controllers/api/v1/payments_controller.rb:7-57 | payment on the tables leaves the memberships alone, keeps the tables consistent and ends in the state and answer `Create` describes |
| MembershipsController.RawMembershipJson | backend/app/controllers/api/v1/memberships_controller.rb:6-9 | a membership rendered by default shows exactly its columns, the timestamps included: its id, the stored features text rather than the trimmed list, and `created_at` and `updated_at` |
| MembershipsController.Index | backend/app/controllers/api/v1/memberships_controller.rb:6-9 | 200 with one rendered row per membership, in table order, and as many rows as there are memberships |
| MembershipsController.RawRows | backend/app/controllers/api/v1/memberships_controller.rb:6-9 | one rendered row per listed id, in order |
| MembershipsController.Create | backend/app/controllers/api/v1/memberships_controller.rb:12-19 | a missing `membership` key is 422; 201 exactly when the parameters are valid, and only then is the plan added under the new id; otherwise 422 with the errors and nothing stored |
| MembershipsController.GuardedCreate | backend/app/controllers/api/v1/memberships_controller.rb:4 | behind `authenticate_user!`: without a valid token the answer is the 401 of `Authenticate` (no token at all: "token required") and no plan is stored; the answer is 401 exactly when the token is refused; an admitted request is answered as `Create` |
| MembershipsController.NullCouponCountRefused | backend/app/controllers/api/v1/memberships_controller.rb:12-19 | a plan whose coupon count is sent as null is refused with 422 and both messages, and nothing is stored, while the same plan without the key is created with 0 coupons |
| MembershipsController.CreateKeepsConsistent | backend/app/controllers/api/v1/memberships_controller.rb:12-19 | creating keeps the tables consistent and no user points at the new plan |
| MembershipsController.Destroy | backend/app/controllers/api/v1/memberships_controller.rb:22-33 | 404 for an unknown id, 409 while a user points at the plan; 204 with no body exactly otherwise, and only then is the plan removed |
| MembershipsController.GuardedDestroy | backend/app/controllers/api/v1/memberships_controller.rb:4 | behind `authenticate_user!`: without a valid token the answer is the 401 of `Authenticate` and no plan is deleted; the answer is 401 exactly when the token is refused; an admitted request is answered as `Destroy` |
| MembershipsController.DestroyKeepsConsistent | backend/app/controllers/api/v1/memberships_controller.rb:22-33 | deleting keeps every user's membership reference valid |
| MembershipsController.UncheckedDeleteBreaksConsistency | backend/app/controllers/api/v1/memberships_controller.rb:25-27 | without the in-use check, deleting a plan in use would leave a user pointing at nothing |
| MembershipsController.CreateMembership | backend/app/controllers/api/v1/memberships_controller.rb:12-19 | creation on the tables leaves the users alone, keeps the tables consistent and ends as `Create` describes |
| MembershipsController.DestroyMembership | backend/app/controllers/api/v1/memberships_controller.rb:22-33 | deletion on the tables leaves the users alone, keeps the tables consistent and ends as `Destroy` describes |
| UsersController.PlanGrant | backend/app/controllers/api/v1/users_controller.rb:47-54 | the plan's own positive coupon count, or the policy value for its name when the count is nil or not positive |
| UsersController.Granted | backend/app/controllers/api/v1/users_controller.rb:45-54 | the user keeps id, email and password and points at the plan; only a plan listing the chat feature adds its grant to the balance (nil read as 0); expiry is not consulted |
| UsersController.GrantMembership | backend/app/controllers/api/v1/users_controller.rb:38-61 | 404 for an unknown user or plan; 200 only with both found, and then the row is the granted user; every other answer leaves the table unchanged |
| UsersController.GrantSucceeds | backend/app/controllers/api/v1/users_controller.rb:38-61 | for a stored user with a valid email and an existing plan, assignment and purchase always answer 200 with their message and the granted row |
| UsersController.GrantVectors | backend/app/controllers/api/v1/users_controller.rb:49-52 | with nothing overridden and a count of 0 a basic plan grants 0 and a premium plan 30 |
| UsersController.GrantKeepsConsistent | backend/app/controllers/api/v1/users_controller.rb:38-61 | granting keeps rows keyed by id, memberships referenced existing and emails unique |
| UsersController.AssignMembership | backend/app/controllers/api/v1/users_controller.rb:38-61 | assignment on the tables leaves the memberships alone, keeps the tables consistent and ends as `GrantMembership` describes |
| UsersController.PurchaseMembership | backend/app/controllers/api/v1/users_controller.rb:102-127 | purchase is the same grant with its own success message, on the tables |
| UsersController.Remove | backend/app/controllers/api/v1/users_controller.rb:65-76 | 404 for an unknown user; on success the user has no membership and a balance of 0; otherwise the table is unchanged |
| UsersController.RemoveZeroesBalance | backend/app/controllers/api/v1/users_controller.rb:65-76 | for a stored user with a valid email removal always succeeds, drops the plan and zeroes the balance |
| UsersController.RemoveMembership | backend/app/controllers/api/v1/users_controller.rb:65-76 | removal on the tables keeps them consistent and ends as `Remove` describes |
| UsersController.MembershipStatus | backend/app/controllers/api/v1/users_controller.rb:80-98 | 404 for an unknown user; otherwise 200 whose status is "available" exactly when the membership is valid |
| UsersController.Decide | backend/app/controllers/api/v1/users_controller.rb:129-171 | the unknown-user outcome exactly for an unknown user; an expired membership is reported expired; a blank or missing feature on a valid membership is "invalid"; a chat outcome reports the balance with nil read as 0 |
| UsersController.AvailabilityIff | backend/app/controllers/api/v1/users_controller.rb:129-171 | a non-blank feature is usable exactly when `has_feature?` grants it and, for chat, the balance is positive |
| UsersController.AvailabilityJson | backend/app/controllers/api/v1/users_controller.rb:131-170 | the body's status is "available" exactly for a usable outcome |
| UsersController.FeatureAvailable | backend/app/controllers/api/v1/users_controller.rb:129-171 | always 200, with status "available" exactly when the decision is usable |
| UsersController.StartChat | backend/app/controllers/api/v1/users_controller.rb:173-204 | 404 for an unknown user; 403 when `has_feature?` does not grant chat; 402 when the balance is nil or not positive; 200 only with a positive balance, which then drops by exactly one; no other answer changes the table |
| UsersController.StartChatSucceeds | backend/app/controllers/api/v1/users_controller.rb:173-204 | for a stored user with a valid email, the chat feature and a positive balance, `start_chat` always answers 200, spends exactly one coupon and reports the new balance |
| UsersController.StartChatSession | backend/app/controllers/api/v1/users_controller.rb:173-204 | spending a coupon on the tables keeps them consistent and ends as `StartChat` describes |
| UsersController.IndexRow | backend/app/controllers/api/v1/users_controller.rb:13-23 | a row shows id and email, and the membership (with its raw features text) exactly when the user has one |
| UsersController.Index | backend/app/controllers/api/v1/users_controller.rb:9-25 | 200 with one row per user in table order, and as many rows as there are users |
| UsersController.IndexRows | backend/app/controllers/api/v1/users_controller.rb:12-24 | one row per listed user id, in order |
| ChatController.Refusal | backend/app/controllers/api/v1/chat_controller.rb:18-30 | a request passes exactly when there are messages, `has_feature?` grants chat and the balance is positive; an empty list is 400, then a missing feature 403, then a missing coupon 403 |
| ChatController.RefusalIsNotSuccess | backend/app/controllers/api/v1/chat_controller.rb:18-30 | every refusal is a 400 or a 403 |
| ChatController.Recent | backend/app/controllers/api/v1/chat_controller.rb:37 | `last(4)`: at most four turns, and they are the final turns of the conversation in order |
| ChatController.MessageReply | backend/app/controllers/api/v1/chat_controller.rb:13-62 | 404 for an unknown user, then the shared refusals, then 500 with the error when the client cannot be built or the call fails; 200 exactly when admitted and answered, with the answer and the unchanged balance |
| ChatController.MessageSendsRecentTurns | backend/app/controllers/api/v1/chat_controller.rb:37-46 | the request holds the prompts and then at most the last four turns, one text part each, with the latest turn last |
| ChatController.Message | backend/app/controllers/api/v1/chat_controller.rb:13-62 | `message` only reads the tables and answers as `MessageReply` |
| ChatController.Chunks | backend/app/controllers/api/v1/chat_controller.rb:113-120 | one chunk event per part, in order |
| ChatController.ChunkTextAppend | backend/app/controllers/api/v1/chat_controller.rb:113-137 | the text reassembled from two event runs is the concatenation of their texts |
| ChatController.ChunkTextOfChunks | backend/app/controllers/api/v1/chat_controller.rb:113-137 | relaying parts as chunk events hands the client exactly their concatenation |
| ChatController.SlicesRebuild | backend/app/controllers/api/v1/chat_controller.rb:130-137 | the 30-character slices of the fallback answer put back together are the answer |
| ChatController.SlicesSized | backend/app/controllers/api/v1/chat_controller.rb:130-137 | there are no slices only for an empty answer; every slice is non-empty and at most 30 characters, and all but the last exactly 30 |
| ChatController.RelayEvents | backend/app/controllers/api/v1/chat_controller.rb:107-155 | every admitted stream begins with a "start" event and has at least two events |
| ChatController.StreamEvents | backend/app/controllers/api/v1/chat_controller.rb:93-170 | with no API key the only event is the general error; otherwise the relay of the streaming run and of the fallback run on the model the stream ended on |
| ChatController.RelaySucceeds | backend/app/controllers/api/v1/chat_controller.rb:109-155 | a stream that succeeds relays every delta it delivered, then "done" with the balance, and no error event |
| ChatController.RelayFallsBack | backend/app/controllers/api/v1/chat_controller.rb:121-137 | when the stream fails and the fallback answers, the client gets the deltas already sent and then the whole fallback answer in non-empty chunks of at most 30 characters, then "done" |
| ChatController.RelayFailsTwice | backend/app/controllers/api/v1/chat_controller.rb:138-167 | when the fallback fails too, the stream ends with the overload error and then the general error, both carrying the failure, and never sends "done" |
| ChatController.DefaultModelBoundsAttempts | backend/app/controllers/api/v1/chat_controller.rb:113-126 | on the default model neither call can switch model, so a streamed request makes at most three streaming and three fallback attempts |
| ChatController.StreamSendsAllTurns | backend/app/controllers/api/v1/chat_controller.rb:98-113 | the streaming request holds the prompts and then every turn, one text part each, with at most 400 output tokens |
| ChatController.EventStream.constructor | backend/app/controllers/api/v1/chat_controller.rb:88-91 | a response stream starts empty and open |
| ChatController.EventStream.Write | backend/app/controllers/api/v1/chat_controller.rb:109 | writing a frame appends exactly that event to the stream |
| ChatController.EventStream.WriteChunks | backend/app/controllers/api/v1/chat_controller.rb:131-137 | writing the slices appends one chunk event per slice, in order |
| ChatController.EventStream.Close | backend/app/controllers/api/v1/chat_controller.rb:168-169 | closing keeps the events written |
| ChatController.MessageStreamReply | backend/app/controllers/api/v1/chat_controller.rb:66-171 | 404 for an unknown user; a plain refusal exactly when the shared checks refuse; otherwise the events of `StreamEvents` over the prompts and all turns, with the unchanged balance |
| ChatController.MessageStream | backend/app/controllers/api/v1/chat_controller.rb:66-171 | a refusal leaves the stream untouched; an admitted request writes its events and always closes the stream; the tables are only read |
| ChatController.Relay | backend/app/controllers/api/v1/chat_controller.rb:107-169 | the stream receives exactly `RelayEvents` of the streaming run and of the fallback run on the model the client ended on, and is closed |
| ChatController.RelayUnfold | backend/app/controllers/api/v1/chat_controller.rb:107-167 | the relay, case by case: success, fallback answered, both failed |
| ChatController.Cache.constructor | backend/app/controllers/api/v1/chat_controller.rb:194 | the cache starts empty |
| ChatController.Cache.Read | backend/app/controllers/api/v1/chat_controller.rb:194 | a read hits exactly when the key was written and its five minutes have not run out |
| ChatController.Cache.Write | backend/app/controllers/api/v1/chat_controller.rb:206 | a retaining cache records the key until now plus the time to live; a null store stays as it was |
| ChatController.Presence | backend/app/controllers/api/v1/chat_controller.rb:177 | `presence`: a key exactly when one was sent and is not blank, and then it is the key sent |
| ChatController.Charged | backend/app/controllers/api/v1/chat_controller.rb:205-209 | `decrement!` lowers the balance by one and changes nothing else |
| ChatController.Admit | backend/app/controllers/api/v1/chat_controller.rb:192-215 | with a key the cache still remembers, "already started" and nothing changes; otherwise one coupon is charged and, with a key, the key is remembered for five minutes |
| ChatController.StartOf | backend/app/controllers/api/v1/chat_controller.rb:175-222 | 404 for an unknown user, 403 without the chat feature, 403 with no coupon before any cache lookup; otherwise `Admit` |
| ChatController.StartSucceedsIffEligible | backend/app/controllers/api/v1/chat_controller.rb:175-222 | `start` answers 200 exactly when the user exists, has the chat feature and has a coupon left |
| ChatController.StartChargesAtMostOne | backend/app/controllers/api/v1/chat_controller.rb:175-222 | `start` changes at most the caller's balance, by exactly one taken from a positive balance, so no balance goes below zero |
| ChatController.StartKeepsConsistent | backend/app/controllers/api/v1/chat_controller.rb:175-222 | `start` keeps the table invariants |
| ChatController.RepeatedKeyChargesOnce | backend/app/controllers/api/v1/chat_controller.rb:191-206 | with a retaining cache a keyed start repeated within five minutes charges nothing more |
| ChatController.ExpiredKeyChargesAgain | backend/app/controllers/api/v1/chat_controller.rb:191-206 | after five minutes the same key charges again |
| ChatController.NullCacheChargesTwice | backend/app/controllers/api/v1/chat_controller.rb:191-209 | with a cache that keeps nothing, the same key is charged twice and both answers report a started session |
| ChatController.StartSession | backend/app/controllers/api/v1/chat_controller.rb:175-222 | `start` on the tables and the cache keeps the tables consistent and ends as `StartOf` describes |
| GeminiClient.ConvertRole | backend/lib/gemini_client.rb:58-67 | the result is "model" exactly for the role "assistant"; every other role, nil and "model" included, becomes "user" |
| GeminiClient.BuildPayload | backend/lib/gemini_client.rb:69-112 | one content per message in the same order, each with the converted role and the message text as its only part; keys of a hash `generationConfig` override the defaults and every other default is kept; the safety list is always the fixed four entries |
| GeminiClient.NonHashOptionsIgnored | backend/lib/gemini_client.rb:107-109 | options that are not a hash, or whose `generationConfig` is not one, leave the default settings unchanged |
| GeminiClient.StreamOptionsMerge | backend/lib/gemini_client.rb:78-109 | the streaming options replace the output cap with 400 and keep topK 30 and topP 0.9 |
| GeminiClient.DigFollows | backend/lib/gemini_client.rb:141 | `dig` along keys and indexes that are all present, through hashes and arrays, reaches the value at the end of the path |
| GeminiClient.ExtractText | backend/lib/gemini_client.rb:135-144 | no candidates (nil or empty) gives the placeholder; with a non-empty list of candidates, the string `dig` finds in the first one is the text, a missing path gives the placeholder and an exception of `dig` is raised; conversely a text other than the placeholder is that string; candidates given as a non-empty hash raise `NoMethodError` for `dig` on nil; an array response raises `TypeError` |
| GeminiClient.ExtractWellFormed | backend/lib/gemini_client.rb:135-144 | a response of the documented shape yields its text |
| GeminiClient.MissingPathPlaceholder | backend/lib/gemini_client.rb:135-144 | a first candidate without content yields the placeholder, whatever the other candidates hold |
| GeminiClient.CandidatesHashRaises | backend/lib/gemini_client.rb:137-141 | candidates given as a hash: `candidates[0]` is nil and the extraction raises `NoMethodError` for `dig` on nil |
| GeminiClient.QuietNotRetried | backend/lib/gemini_client.rb:215-219 | a message with no digit, no "v" and no "빈" is not retryable |
| GeminiClient.ReceiverQuiet | backend/lib/gemini_client.rb:141 | the way a `NoMethodError` names its receiver uses no digit, "v" or "빈" |
| GeminiClient.ClassNameQuiet | backend/lib/gemini_client.rb:141 | the Ruby class name of any JSON value (NilClass, Integer, Hash, ...) uses no digit, "v" or "빈" |
| GeminiClient.QuietAppend | backend/lib/gemini_client.rb:215-219 | joining two such messages gives another |
| GeminiClient.NoMethodNotRetried | backend/lib/gemini_client.rb:214-236 | a `NoMethodError` raised on a parsed value (`dig` on nil, `empty?` on a number) is not retried, so it ends `with_retries` at once |
| GeminiClient.FindSepFrom | backend/lib/gemini_client.rb:171-172 | a position found holds a "\n\n" at or after the start |
| GeminiClient.FindSep | backend/lib/gemini_client.rb:171-172 | a position found holds a "\n\n" |
| GeminiClient.FindSepFromFirst | backend/lib/gemini_client.rb:171-172 | the position found is the first terminator from the start, and none is found only when none follows |
| GeminiClient.FindSepFirst | backend/lib/gemini_client.rb:171-172 | `index("\n\n")` finds the first terminator, and finds none only when there is none |
| GeminiClient.CutFramesNoSep | backend/lib/gemini_client.rb:171-174 | no frame cut off and not the remainder holds a terminator |
| GeminiClient.CutFramesRebuild | backend/lib/gemini_client.rb:171-174 | the frames, each followed by its terminator, and then the remainder give back the text |
| GeminiClient.TerminatedCons | backend/lib/gemini_client.rb:171-174 | terminated frames unfold one frame at a time |
| GeminiClient.SplitAtSep | backend/lib/gemini_client.rb:172-174 | a text splits at a terminator into what precedes it and what follows it |
| GeminiClient.FindSepFromAppend | backend/lib/gemini_client.rb:168-172 | appending text does not move a terminator already found |
| GeminiClient.FindSepAppend | backend/lib/gemini_client.rb:168-172 | the first terminator stays the first when more text arrives |
| GeminiClient.CutFramesAppend | backend/lib/gemini_client.rb:167-174 | reading in two pieces cuts the same frames as reading at once |
| GeminiClient.CutFramesUnfold | backend/lib/gemini_client.rb:171-174 | cutting unfolds at the first terminator |
| GeminiClient.CutFramesAppendSome | backend/lib/gemini_client.rb:168-174 | cutting an extended text unfolds at its first terminator |
| GeminiClient.FrameDelta | backend/lib/gemini_client.rb:173-189 | only a "data: " frame whose payload parses can do anything, so a blank or unparsable payload is skipped; a non-empty string that `dig` finds is delivered, and a delivered text is always such a string; nil or an empty text is skipped; an exception of `dig` aborts with its message, and a frame aborts only when `dig` or `empty?` raises, since only parse errors are rescued |
| GeminiClient.ThenJoin | backend/lib/gemini_client.rb:171-194 | handling one frame and then a scan, and afterwards a later scan, is the same as handling that frame before the two scans joined: a frame that raised still cuts off everything after it |
| GeminiClient.ScanWithAppend | backend/lib/gemini_client.rb:171-194 | for any per-frame effect, scanning two runs of frames together is the scan of the first joined with the scan of the second |
| GeminiClient.ScanAppend | backend/lib/gemini_client.rb:171-194 | handling two runs of frames: the texts of the first, then those of the second only when the first raised nothing |
| GeminiClient.ScanNonEmpty | backend/lib/gemini_client.rb:176-189 | at most one text per frame, and none empty |
| GeminiClient.UnterminatedTailIgnored | backend/lib/gemini_client.rb:171-194 | text after the last terminator is never handled |
| GeminiClient.CutFirstFrame | backend/lib/gemini_client.rb:172-189 | cutting the first frame applies its effect and leaves the rest to be cut |
| GeminiClient.CutNoFrame | backend/lib/gemini_client.rb:171 | a buffer without a terminator is all remainder |
| GeminiClient.AbortStops | backend/lib/gemini_client.rb:166-195 | once a frame raised, text arriving after it changes nothing |
| GeminiClient.AbortIsFinal | backend/lib/gemini_client.rb:166-195 | once the frames of the chunks read so far raised, the later chunks change nothing |
| GeminiClient.HandleFrame | backend/lib/gemini_client.rb:173-189 | the statement-by-statement handling of one frame has exactly the effect `FrameDelta` states |
| GeminiClient.ReadBody | backend/lib/gemini_client.rb:166-195 | the loop over chunks hands on exactly the texts of the frames cut from the whole body, however it was chunked, stops at the first frame that raises with that exception, otherwise keeps the unterminated tail as its buffer, and counts one chunk per text |
| GeminiClient.StreamAttempt | backend/lib/gemini_client.rb:146-206 | a failure status raises as `FailureMessage` says before any text; otherwise the frames' texts are delivered, a frame that raises fails the attempt with its exception after the texts before it, and the attempt succeeds exactly when the body was read to the end without an exception and delivered some text |
| GeminiClient.MakeStreamRequest | backend/lib/gemini_client.rb:146-206 | the loop-based request returns exactly `StreamAttempt` |
| GeminiClient.ListFrameAborts | backend/lib/gemini_client.rb:180-189 | a frame whose payload is a list raises `TypeError` in `dig` and aborts the read instead of being skipped |
| GeminiClient.StreamPayloadDig | backend/lib/gemini_client.rb:182 | `dig` finds the text of a payload of the documented shape |
| GeminiClient.DataFrameDelivers | backend/lib/gemini_client.rb:173-189 | a frame "data: " followed by a payload of the documented shape with a non-empty text hands exactly that text to the block |
| GeminiClient.NumberTextAborts | backend/lib/gemini_client.rb:182-183 | a frame whose text is a number raises `NoMethodError` for `empty?` and aborts the read |
| GeminiClient.ChatAttempt | backend/lib/gemini_client.rb:114-144 | a plain request delivers nothing through the block, succeeds exactly when answered and the extraction raised nothing, with the extracted text; an extraction that raised fails with its message; a failure status raises as `FailureMessage` says |
| GeminiClient.FailureMessage | backend/lib/gemini_client.rb:125-129 | a failed request raises "API 요청 실패: " followed by the body's `error.message` when it is a string, or by the status text when the body is not JSON or holds no message; when `dig` itself raises, that exception is raised instead |
| GeminiClient.GeminiErrorMessage | backend/lib/gemini_client.rb:125-129 | Gemini's documented error body gives its message after the prefix |
| GeminiClient.ErrorBodyDigRaises | backend/lib/gemini_client.rb:125-129 | an `error` that is a string, or a body that is a list, makes `dig` raise `TypeError`, and the attempt fails with Ruby's message and no prefix |
| GeminiClient.BackoffMs | backend/lib/gemini_client.rb:222 | the sleeps before the second and third attempts are 0.8 s and 1.6 s, before jitter |
| GeminiClient.AfterAfter | backend/lib/gemini_client.rb:209-237 | prefixing earlier attempts twice prefixes them once, in order |
| GeminiClient.AfterNothing | backend/lib/gemini_client.rb:209-237 | prefixing nothing changes nothing |
| GeminiClient.RetryStepSucceeded | backend/lib/gemini_client.rb:211-213 | a success ends the run with that attempt |
| GeminiClient.RetryStepSameModel | backend/lib/gemini_client.rb:221-226 | a retryable failure with attempts left sleeps the back-off plus jitter and retries on the same model |
| GeminiClient.RetryStepFallback | backend/lib/gemini_client.rb:229-234 | after the last retryable failure on a model other than the lite one, the run restarts from zero on the lite model |
| GeminiClient.RetryStepStop | backend/lib/gemini_client.rb:229-235 | a failure that is not retryable, or the last failure on the lite model, ends the run and is raised |
| GeminiClient.RetryBound | backend/lib/gemini_client.rb:209-237 | a run makes at least one and at most the attempts left on its model plus three more when it may still fall back to the lite model; it ends on its own model or the lite one, and its outcome is that of its last attempt |
| GeminiClient.DefaultModelNeverFallsBack | backend/lib/gemini_client.rb:9-10 | because the default model is the lite model, a default client makes at most three attempts and never switches model |
| GeminiClient.NonRetryableRaisedAtOnce | backend/lib/gemini_client.rb:214-235 | a failure that is not retryable is raised after the single attempt that met it |
| GeminiClient.AllRetryableFailures | backend/lib/gemini_client.rb:209-237 | when every attempt fails retryably the run ends on the lite model: three attempts with 0.8 s and 1.6 s sleeps plus jitter when it started there, else six attempts with those two sleeps on each model |
| GeminiClient.NotRetryableWithout | backend/lib/gemini_client.rb:215-219 | a message without 'v', '4', '5' or '빈' is not retryable |
| GeminiClient.MissingCharNotContained | backend/lib/gemini_client.rb:215-219 | a text missing a character of a pattern does not contain the pattern |
| GeminiClient.FailedRequestWithoutCodeNotRetried | backend/lib/gemini_client.rb:126-129 | retrying is decided by the message alone: a failed request whose message quotes no code and mentions neither overload nor an empty answer is raised at once, even for HTTP 500 |
| GeminiClient.InternalErrorNotRetried | backend/lib/gemini_client.rb:126-129 | the message "Internal error encountered." is not retried |
| GeminiClient.EmptyAnswerRetried | backend/lib/gemini_client.rb:199-201 | the empty-answer error is retried |
| GeminiClient.Finish | backend/lib/gemini_client.rb:36-53 | a successful run returns its value; a failed one raises its message behind the caller's prefix |
| GeminiClient.InitialModel | backend/lib/gemini_client.rb:23 | with no model configured the client uses the default model |
| GeminiClient.Client.constructor | backend/lib/gemini_client.rb:20-24 | a client built with a present, non-empty key starts on the model `InitialModel` settles on |
| GeminiClient.Decide | backend/lib/gemini_client.rb:214-235 | after a success or a failure not to be retried the run stops with that attempt; after a retryable failure it goes on either on the same model with one attempt more and the back-off, or on the lite model from attempt zero with no sleep, as `RetryFrom` prescribes |
| GeminiClient.Client.WithRetries | backend/lib/gemini_client.rb:209-237 | the loop makes exactly the run `RetryFrom` describes and leaves `@model` where the run ended |
| GeminiClient.Client.Chat | backend/lib/gemini_client.rb:29-39 | `chat` retries the plain request on the built payload and returns the text or raises the wrapped failure |
| GeminiClient.Client.ChatStream | backend/lib/gemini_client.rb:44-53 | `chat_stream` retries the streamed request; every text any attempt delivers reaches the block, in order, and a final failure is raised wrapped |
| GeminiClient.NewClient | backend/lib/gemini_client.rb:20-22 | no client exactly when the API key is missing or empty |
| ChatService.LineBreak | frontend/src/services/chatService.ts:136 | a `\r?\n` match at a position ends one or two characters later, within the text |
| ChatService.DelimiterAt | frontend/src/services/chatService.ts:136 | a delimiter match at a position covers two to four characters of the text |
| ChatService.DelimiterText | frontend/src/services/chatService.ts:136 | what a delimiter match covers is one of "\n\n", "\r\n\n", "\n\r\n" and "\r\n\r\n" |
| ChatService.FirstDelimiterFrom | frontend/src/services/chatService.ts:137 | a match found starts at or after the search start and is a real delimiter match |
| ChatService.FirstDelimiterFromFirst | frontend/src/services/chatService.ts:137 | the match found is the leftmost one, and none is found only when no position matches |
| ChatService.SplitEvents | frontend/src/services/chatService.ts:137-138 | `split` on the delimiter yields as many complete pieces as delimiters, and a remainder |
| ChatService.SplitEventsUnfold | frontend/src/services/chatService.ts:137-138 | splitting unfolds at the leftmost delimiter |
| ChatService.SplitRebuild | frontend/src/services/chatService.ts:137-138 | the pieces, each followed by its delimiter, then the remainder, give back the buffer |
| ChatService.InterleaveCons | frontend/src/services/chatService.ts:137 | interleaving pieces and delimiters unfolds one piece at a time |
| ChatService.Rejoin | frontend/src/services/chatService.ts:137 | the text before, at and after a delimiter joins back into the text |
| ChatService.SplitParts | frontend/src/services/chatService.ts:137-138 | every delimiter cut out is a line-break pair, and the kept remainder holds no complete delimiter |
| ChatService.LineBreakAppend | frontend/src/services/chatService.ts:133-136 | a line break already complete is unchanged by more text |
| ChatService.LineBreakFits | frontend/src/services/chatService.ts:133-136 | a line break that ends inside the old text was already there |
| ChatService.DelimiterAtAppend | frontend/src/services/chatService.ts:133-136 | a delimiter already complete is unchanged by more text |
| ChatService.DelimiterFits | frontend/src/services/chatService.ts:133-136 | a delimiter that ends inside the old text was already there |
| ChatService.NoStraddle | frontend/src/services/chatService.ts:133-137 | a position before a complete delimiter does not start a new match once more text arrives |
| ChatService.FirstDelimiterFromAppend | frontend/src/services/chatService.ts:133-137 | the leftmost complete delimiter stays leftmost when more text arrives |
| ChatService.SplitEventsAppendSome | frontend/src/services/chatService.ts:133-138 | splitting an extended buffer unfolds at its first complete delimiter |
| ChatService.SplitEventsAppend | frontend/src/services/chatService.ts:133-138 | splitting the old text and then its remainder joined to the new read gives the pieces and remainder of splitting everything at once |
| ChatService.Dispatch | frontend/src/services/chatService.ts:140-162 | a piece makes at most one callback, and only when, with carriage returns removed, it starts with "data: " and the rest parses |
| ChatService.DispatchAllAppend | frontend/src/services/chatService.ts:140-163 | dispatching two runs of pieces makes the calls of the first, then of the second |
| ChatService.DispatchAllSnoc | frontend/src/services/chatService.ts:140-163 | dispatching one more piece appends its calls |
| ChatService.DispatchEach | frontend/src/services/chatService.ts:140-163 | the inner loop makes the calls already made followed by those of every piece, in order |
| ChatService.ErrorOr | frontend/src/services/chatService.ts:108-109 | the message is the body's non-empty `error` string when there is one, otherwise the fallback, and never empty when the fallback is not |
| ChatService.RejectionMessage | frontend/src/services/chatService.ts:107-110 | a non-2xx answer reports a non-empty message: the server's error or the default |
| ChatService.Received | frontend/src/services/chatService.ts:90-168 | a request that fails before the body makes exactly one error callback: the thrown message, the server's error or the default, or the unreadable-stream message |
| ChatService.SendMessageStream | frontend/src/services/chatService.ts:129-164 | the read loop makes exactly the calls `Received` describes and ends holding the unterminated tail of the whole body |
| ChatService.ReadStep | frontend/src/services/chatService.ts:129-138 | one more read continues the dispatch and the remainder of everything read so far |
| ChatService.ReadsDoNotMatter | frontend/src/services/chatService.ts:129-164 | however the body is cut into reads, the same callbacks are made |
| ChatService.RemoveAllAbsent | frontend/src/services/chatService.ts:141 | removing a character the text does not hold leaves it unchanged |
| ChatService.FirstDelimiterFromClear | frontend/src/services/chatService.ts:137 | with no line break before a delimiter, that delimiter is the first match |
| ChatService.SplitFrame | frontend/src/services/chatService.ts:137-138 | a frame body without line breaks followed by a blank line is split off as one piece |
| ChatService.FrameLineClear | frontend/src/services/chatService.ts:141-143 | prefixing "data: " adds no line break |
| ChatService.DispatchFrame | frontend/src/services/chatService.ts:140-162 | the piece of one server event makes that event's callback, and none for "start" |
| ChatService.FaithfulCodecSplit | frontend/src/services/chatService.ts:146 | an event log that encodes faithfully does so event by event |
| ChatService.FramesStep | frontend/src/services/chatService.ts:137-138 | the first frame of an event log is split off as its own piece |
| ChatService.DispatchAllCons | frontend/src/services/chatService.ts:140-163 | dispatching a piece and then the rest makes its calls and then theirs |
| ChatService.ExpectedCons | frontend/src/services/chatService.ts:150-159 | the expected callbacks of a log are those of its first event and then of the rest |
| ChatService.StreamReachesPage | frontend/src/services/chatService.ts:129-164 | the frames `message_stream` writes make exactly the callbacks of its chunk, done and error events, in order, and leave the buffer empty |
| ChatService.StartFailure | frontend/src/services/chatService.ts:62-64 | a failed session start throws a non-empty message: the server's error or the default |
| ChatService.KeyToSend | frontend/src/services/chatService.ts:56 | a supplied non-empty key is sent unchanged; otherwise a generated key |
| ChatService.GeneratedKeyIsPresent | frontend/src/services/chatService.ts:56-60 | a generated key is never blank, so the server always applies its idempotency check to it |
| UseTTS.SplitByLanguage | frontend/src/hooks/useTTS.ts:3-20 | the parts rebuild the content exactly; none is empty; every character of a part is of the part's class (ASCII letter or not); neighbouring parts alternate; the first part's class is that of the first character; empty content gives no part |
| UseTTS.JoinedSnoc | frontend/src/hooks/useTTS.ts:11-18 | pushing a part extends the joined text by that part's text |
| UseTTS.ScanCut | frontend/src/hooks/useTTS.ts:10-13 | a character of the other class, with a non-empty buffer, pushes the buffer as a part and starts a new buffer of the new class, keeping the loop invariant |
| UseTTS.ScanExtend | frontend/src/hooks/useTTS.ts:14-15 | any other character joins the buffer, keeping the loop invariant |
| UseTTS.ScanEnd | frontend/src/hooks/useTTS.ts:18-19 | pushing the last non-empty buffer completes a split into alternating runs; an empty buffer at the end means empty content |
| UseTTS.LanguageRunsTail | frontend/src/hooks/useTTS.ts:3-20 | a split into runs is its first part followed by a split of the rest of the text |
| UseTTS.LanguageRunsHead | frontend/src/hooks/useTTS.ts:6 | a split of non-empty text starts with a part of the first character's class |
| UseTTS.LanguageRunsUnique | frontend/src/hooks/useTTS.ts:3-20 | only one split has all the properties `splitByLanguage` promises: the maximal runs |
| UseTTS.RunBoundary | frontend/src/hooks/useTTS.ts:8-16 | any split's first run is no longer than another's, so first runs are equally long |
| ChatPage.CeilSeconds | frontend/src/pages/ChatPage.tsx:319 | the whole seconds reported are the least whole number of seconds covering the wait |
| ChatPage.Screen | frontend/src/pages/ChatPage.tsx:313-377 | the guards in their order: refused as too soon exactly within 3000 ms of the last send, reporting the seconds left rounded up; as too many exactly when past the cooldown, within a minute and over 10 sends; as too short only for voice input; as blank with the typed/voice distinction; accepted exactly when every guard passes, with the trimmed text |
| ChatPage.CooldownWaitBounded | frontend/src/pages/ChatPage.tsx:316-323 | with a clock that does not run backwards, a send within the cooldown is refused with a wait of one to three seconds |
| ChatPage.TypedTextNotTimed | frontend/src/pages/ChatPage.tsx:341-349 | typed text is never refused as a short recording |
| ChatPage.ToApi | frontend/src/pages/ChatPage.tsx:385-389 | the request holds every message in order with its role and content and without its id |
| ChatPage.AppendTo | frontend/src/pages/ChatPage.tsx:408-416 | a chunk is appended to the message with the reply's id only; every other message is unchanged |
| ChatPage.ApologizeIn | frontend/src/pages/ChatPage.tsx:424-434 | the apology replaces the content of the reply only while it is still empty; every other message is unchanged |
| ChatPage.AfterChunks | frontend/src/pages/ChatPage.tsx:408-416 | a run of chunks changes no message count |
| ChatPage.ChunksAccumulate | frontend/src/pages/ChatPage.tsx:408-416 | the reply ends up holding its old content followed by the chunks in the order they came; every other message is untouched |
| ChatPage.ErrorKeepsPartialReply | frontend/src/pages/ChatPage.tsx:408-434 | an error after some text leaves the partial reply in place; an error before any text replaces the empty reply with the apology |
| ChatPage.KeyFor | frontend/src/pages/ChatPage.tsx:82-88 | the key is never empty, and a key already stored in the tab is reused unchanged |
| ChatPage.NamesDiffer | frontend/src/pages/ChatPage.tsx:81-82 | the flag name and the key name differ, so the flag never overwrites the key |
| ChatPage.KeyCreatedOnce | frontend/src/pages/ChatPage.tsx:84-88 | once stored, the key is reused whatever a later entry's random suffix and clock |
| ChatPage.Page.constructor | frontend/src/pages/ChatPage.tsx:25-48 | a mounted page starts loading, with no messages, no error, no coupon count, counters and times at zero, and the tab's storage as given |
| ChatPage.Page.Init | frontend/src/pages/ChatPage.tsx:53-125 | a page already started does nothing; no stored user goes to the login; an answer that is not ok shows its error and keeps loading; a lookup that throws shows its message (or the default one) and stops loading; otherwise entering as `Enter` describes, ending ready with only the greeting, or with the start's error or the default message |
| ChatPage.Page.Enter | frontend/src/pages/ChatPage.tsx:81-117 | the key is taken from the tab's storage or created and stored first; the start is requested with it only when the flag is unset; the flag is set before the request and removed when it fails; on success the page shows the greeting and the remaining coupons |
| ChatPage.Page.FinalizeAnswer | frontend/src/pages/ChatPage.tsx:313-437 | the counter moves as the guards say even when a later guard refuses; a refused send shows its error and changes no message; an accepted send records the time, clears the transcript, appends the user message and an empty reply, and requests the earlier messages plus the new one without ids |
| ChatPage.Page.Guard | frontend/src/pages/ChatPage.tsx:325-354 | the counter after the guards, and a recording stopped once the length guard passed; nothing else changes |
| ChatPage.Page.Send | frontend/src/pages/ChatPage.tsx:379-401 | the user message and then an empty reply are appended, and the request is built from the messages before the reply |
| ChatPage.Page.OnChunk | frontend/src/pages/ChatPage.tsx:408-417 | the wait ends and the chunk is appended to the reply with the id |
| ChatPage.Page.OnDone | frontend/src/pages/ChatPage.tsx:419-422 | the wait ends and the remaining coupons are shown; no message changes |
| ChatPage.Page.OnError | frontend/src/pages/ChatPage.tsx:424-435 | the wait ends, the error is shown, and a still-empty reply gets the apology |
| FormValidation.EmailFormatHasSite | frontend/src/pages/RegisterPage.tsx:45 | text the pattern matches has an `@` with a non-space before it, a `.` after it with only non-spaces between, and a non-space after the `.` |
| FormValidation.SiteHasEmailFormat | frontend/src/pages/RegisterPage.tsx:45 | such a site anywhere in the text makes the pattern match |
| FormValidation.EmailFormatIffSite | frontend/src/pages/RegisterPage.tsx:45 | the pattern matches exactly when the text has such a site |
| FormValidation.EmailFormatUnanchored | frontend/src/pages/RegisterPage.tsx:45 | the pattern has no anchors: text around a matching address keeps it matching |
| FormValidation.NoAtNoEmailFormat | frontend/src/pages/RegisterPage.tsx:45 | text without an `@` never matches |
| FormValidation.EmailFormatVectors | frontend/src/pages/LoginPage.tsx:39 | "a@b.c" matches, and so does an address inside other words and spaces |
| FormValidation.EmailFormatRejects | frontend/src/pages/LoginPage.tsx:39 | a space before the `@`, or no `.` after it, defeats the pattern |
| FormValidation.RegisterProblem | frontend/src/pages/RegisterPage.tsx:32-58 | the problem reported fails its check and every earlier check passes, in the order email, password, confirmation blank, email format, length, mismatch; no problem exactly when every check passes |
| FormValidation.LoginProblem | frontend/src/pages/LoginPage.tsx:30-44 | the same for the three sign-in checks: email blank, password blank, email format |
| FormValidation.BlankChecksAreBlank | frontend/src/pages/RegisterPage.tsx:33-43 | a blank check fails exactly on a field of whitespace only |
| FormValidation.RegisterValidIsLoginValid | frontend/src/pages/LoginPage.tsx:30-44 | what the sign-up form accepts, the sign-in form accepts too |
| FormValidation.LoginSharesRegisterPrefix | frontend/src/pages/LoginPage.tsx:31-38 | the two forms report the same blank-field problem first |
| FormValidation.LoginHasNoLengthCheck | frontend/src/pages/LoginPage.tsx:30-44 | a one-character password passes sign-in but is too short for sign-up |
| FormValidation.LastCheckIsEquality | frontend/src/pages/RegisterPage.tsx:53-57 | once the earlier checks pass, the form is valid exactly when the two passwords are equal |
| FormValidation.LengthUntrimmed | frontend/src/pages/RegisterPage.tsx:49 | the length is counted before trimming: five spaces and a letter are long enough |
| FormValidation.MismatchExact | frontend/src/pages/RegisterPage.tsx:53 | the confirmation must match to the character: a trailing space is a mismatch |
| FormValidation.EmptyFormNeedsEmail | frontend/src/pages/RegisterPage.tsx:33-36 | an empty form is refused for the missing email first, on both pages |
| FormValidation.RegisterChange | frontend/src/pages/RegisterPage.tsx:22-30 | an edit sets the named field only and clears the message; loading is kept |
| FormValidation.RegisterSubmit | frontend/src/pages/RegisterPage.tsx:60-67 | a request is sent exactly when the form is valid, with the form as entered, loading set and the message cleared; otherwise the first problem's message is shown |
| FormValidation.Failed | frontend/src/pages/RegisterPage.tsx:82-86 | a failure keeps the form and shows the thrown message, or the fallback when it is missing or empty |
| FormValidation.RegisterFailed | frontend/src/pages/RegisterPage.tsx:82-86 | a failed sign-up stops loading and shows the thrown message or the default |
| FormValidation.EditClearsRegisterError | frontend/src/pages/RegisterPage.tsx:22-30 | a refused submit shows a message, and the next edit clears it |
| FormValidation.LoginChange | frontend/src/pages/LoginPage.tsx:20-28 | an edit sets the named field only and clears the message; loading is kept |
| FormValidation.LoginSubmit | frontend/src/pages/LoginPage.tsx:46-53 | a request is sent exactly when the sign-in form is valid; otherwise the first problem's message is shown |
| FormValidation.LoginFailed | frontend/src/pages/LoginPage.tsx:67-71 | a failed sign-in stops loading and shows the thrown message or the default |
| FormValidation.EditClearsLoginError | frontend/src/pages/LoginPage.tsx:20-28 | a refused sign-in shows a message, and the next edit clears it |
| Text.TrimLeft | backend/app/models/membership.rb:24 | what is kept is a suffix of the text that starts with a non-space character, or nothing |
| Text.TrimLeftDropsSpaces | backend/app/models/membership.rb:24 | everything dropped at the front is whitespace |
| Text.TrimRight | backend/app/models/membership.rb:24 | what is kept is a prefix of the text that ends with a non-space character, or nothing |
| Text.TrimRightDropsSpaces | backend/app/models/membership.rb:24 | everything dropped at the end is whitespace |
| Text.Trim | backend/app/models/membership.rb:24 | `strip` and `trim` leave no whitespace at either end |
| Text.TrimIdentity | backend/app/models/membership.rb:24 | text with no whitespace at either end is its own trim |
| Text.TrimEmptyIffBlank | frontend/src/pages/RegisterPage.tsx:33 | trimming gives the empty text exactly for a blank field |
| Text.SplitAll | backend/app/models/membership.rb:24 | splitting gives at least one field, and no field holds the separator |
| Text.JoinSplitAll | backend/app/models/membership.rb:24 | joining the fields with the separator gives back the text |
| Text.SplitAllNoSep | backend/app/models/membership.rb:24 | text without the separator is a single field |
| Text.SplitAllCons | backend/app/models/membership.rb:24 | a separator-free head becomes the first field and the rest splits on its own |
| Text.DropTrailingEmpty | backend/app/models/membership.rb:24 | Ruby's `split` drops only the empty fields at the end, keeping the others in order |
| Text.MapTrim | backend/app/models/membership.rb:24 | `map(&:strip)` trims every field, in order |
| Text.LeadingWord | backend/app/controllers/concerns/authenticatable.rb:32 | the leading word is the longest prefix free of whitespace |
| Text.WordsAreWords | backend/app/controllers/concerns/authenticatable.rb:32 | `split(' ')` yields only non-empty runs of non-whitespace |
| Text.WordsEmptyIffBlank | backend/app/controllers/concerns/authenticatable.rb:32 | `split(' ')` yields nothing exactly for blank text |
| Text.WordsOfTwo | backend/app/controllers/concerns/authenticatable.rb:32 | two words joined by one space split back into the two words |
| Text.WordsLastTrails | backend/app/controllers/concerns/authenticatable.rb:32 | the last element of `split(' ')` is the word that ends the text |
| Text.RemoveAll | frontend/src/services/chatService.ts:141 | the removed character no longer occurs, every other character occurs as often as before, and the text does not grow |
| Text.RemoveAllAppend | frontend/src/services/chatService.ts:141 | removal works piece by piece, so the remaining characters keep their order |
| Text.RemoveAllOne | frontend/src/services/chatService.ts:141 | a single character stays exactly when it is not the one removed |
| Text.ConcatSnoc | backend/lib/gemini_client.rb:168 | appending one more chunk extends the text read so far by that chunk |
| Text.ConcatSplit | backend/lib/gemini_client.rb:166-170 | the chunks read before and after any point make up the whole body |
| Text.NatToString | backend/app/controllers/api/v1/chat_controller.rb:193 | a natural number renders as a non-empty run of digits |
| Text.DigitsValueNatToString | backend/app/controllers/api/v1/chat_controller.rb:193 | reading back a rendered natural number gives it again |

## Left out

- HTTP, TLS and timeouts in `GeminiClient`, and the network in general. A plain request's answer and a streamed body (its decoded chunks and how it ended) are oracle values, indexed by payload, model and attempt number.
- JSON parsing and encoding are oracles: `parse` returns `None` where `JSON.parse` raises, and `encode` stands for `to_json`. `ChatService.StreamReachesPage` assumes the encoding has no raw line break and parses back, as `to_json` does.
- JWT signing, verification and encoding are left out: `decode` and `encode` stand for `JWT.decode` and `JWT.encode` with the application secret. bcrypt hashing in `has_secure_password` is left out too: a password is checked by equality with the stored one.
- `sleep` and `rand` in `with_retries`: the delays are integer milliseconds, recorded rather than waited, and the jitter is an oracle. The floating-point values 0.5 and 0.9 of the generation settings are kept as literal text.
- `SystemPrompts.tutor_messages` is not part of this model. The prompts are a parameter of the chat endpoints. `FeatureNames::CHAT` is taken to be "대화".
- Concurrency: the read-then-write race on `Rails.cache` in `start`, and the atomicity of `decrement!` and `save`. The tables and the cache are in-memory state updated one request at a time.
- `ChatController.StartSession`: the 500 answer for a database error raised by `decrement!` is not modelled, because the in-memory store cannot fail.
- `ChatController.Relay`: the streamed deltas are written as chunk events after the streaming call returns, not interleaved with it. The order and content of the events are the same when every write succeeds. A failed write (the client has gone away) raises inside the streaming block, which in the code ends that streaming attempt and sends the fallback request. Failing writes are not modelled.
- `GeminiClient.ExtractText`: a first candidate's text that is truthy but not a string (a number, true, a list, a hash) is returned as it is by the code. The model gives the placeholder instead, because an answer is a string here.
- `GeminiClient.FrameDelta`: a frame whose text is a non-empty list is handed to the caller's block as a list, and one whose text is a non-empty hash raises `ArgumentError` in the debug log line (`text[0,80]`). The model skips both frames.
- Exception messages raised by Ruby itself (`NoMethodError`, `TypeError`) are worded as Ruby 3.4 words them. Older versions word them differently. Ruby 3.2, for one, names the receiver with its value ("for 500:Integer"), and those digits could make such a message retryable.
- The chat endpoints read the user from the `user_id` parameter, as the code does. The token's user found by the before-action is checked separately in `Authenticatable`.
- `MembershipPolicy.CouponCountFor`: the default texts of `ENV.fetch` ("0", "30") are given already parsed. `MembershipPolicy.FetchDefaults` shows that parsing them gives the same values.
- `UserModel.UserErrors`: the 72-byte password limit of `has_secure_password` is counted in characters, not bytes. Rails' exact message wording and order for several failing validations is not reproduced.
- `Text.Trim`: one ASCII whitespace set stands for Ruby `strip`, Ruby `\s`, Rails `blank?`, JavaScript `trim` and `\S`. The wider Unicode whitespace of JavaScript and of Rails `blank?` (U+3000 and other Unicode spaces) is not modelled: a name, feature list, email or Idempotency-Key made only of such spaces is blank to Rails but not to the model. Ruby `strip` also removes NUL characters, and the model does not.
- `MembershipsController.Create`, `MembershipsController.Destroy`, `PaymentsController.Create`: each describes the action once `authenticate_user!` has admitted the request. The before-action itself is composed in with them in `GuardedCreate` and `GuardedDestroy`.
- `MembershipModel.CouponCountErrors`: request parameters arrive as typed values (`CountParam`), so a coupon count sent as non-numeric text, which `numericality` refuses with "Coupon count is not a number", is not modelled; neither is a numeric string that Rails converts.
- `FormValidation.RegisterProblem`: the 6-character password minimum counts characters, while JavaScript's `.length` counts UTF-16 code units. A password of three characters outside the Basic Multilingual Plane, such as "😀😀😀", is 6 units long and passes the browser check, but the model reports it too short.
- `GeminiClient.FailureMessage`: a truthy `error.message` that is a float, a list or a hash is interpolated with Ruby's `to_s`. The model puts the status text instead. Integers and `true` are rendered as Ruby renders them.
- `UsersController.RawUserJson`: the users table's migration is not part of this model, so any timestamp columns it has are not rendered. A membership's `created_at` and `updated_at` are modelled.
- Times, including a membership's `expires_at`, are integer instants and are rendered as integers. Rails renders them as ISO 8601 strings.
- `ChatPage.Screen`: the 1000-character limit counts characters, while JavaScript's `.length` counts UTF-16 code units, so text outside the Basic Multilingual Plane reaches the limit sooner in the browser.
- `ChatPage.Page.OnChunk`: the chunk is a string. JavaScript's `msg.content + undefined` for a chunk event without `content` is not modelled.
- `ChatPage.Page.Init`: the outcome of the user lookup (found, not ok, or thrown with its message, which also covers a body that is not JSON) and of `startChatSession` are parameters. An exception while writing to storage is not modelled. The 3-second redirect to the home page after a failure is not modelled.
- Timers are left out: the 15-second first-event timeout of `sendMessageStream`, the 800 ms automatic send, the 5-minute recording limit, and the timed clearing of error messages.
- Also left out: navigation, `localStorage` of the token and user, React rendering, Web Speech recognition and synthesis, audio drawing, and `playMessage` sequencing.
- `FormValidation.RegisterSubmit` and `FormValidation.LoginSubmit`: what a successful sign-up or sign-in does next (storing the token and user, navigating) is not modelled. Only the request that is sent and the page state are.
- The non-streaming `sendMessage` of the chat client, the other HTTP service wrappers, `useChatStream`, routing, migrations and seeds are not part of this model.
- The home, membership and admin pages repeat the chat-button gating and feature splitting of the server. They are not modelled separately.
- The `show` action of the users endpoint, and `logout`, `me` and `validate` of the auth endpoint, are not part of this model. They only read and render a row.

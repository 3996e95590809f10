# whisk-server core, modelled in Dafny

whisk-server is the backend of a usage-metered image bot. Each user has a
plan, or the free tier when there is none. The plan fixes how many devices may
hold a live socket at once and how many tasks a day are allowed. This project
models the parts of the server that decide things. Each request or socket
event runs as one atomic step on a store with four tables: users, plans,
sessions and transactions. The store also logs the socket messages the server
emits and the set of sockets it has closed.

- `records.dfy` (`Records`): the rows, the emitted events, and a few
  JavaScript conventions the routes rely on: `a || b` on strings, truthiness
  of request fields, and `Number.prototype.toString`.
- `store.dfy` (`Store`): the `Db` object whose tables the handlers reassign.
  It also holds `findOne` by e-mail or Google id, a scan specified by the
  unique lookup it implements, and the `user.Plan` association.
- `realtime.dfy` (`Realtime`): the socket server in `index.js`. This covers
  the handshake middleware, the day key, and the `connection` handler (lazy
  daily reset, limit choice, device admission, session upsert, initial state).
  It also covers the `task_complete` handler with its broadcast, and
  `disconnect`.
- `forgot_password.dfy` (`ForgotPassword`): the one-time-code state machine
  of `request-otp`, `verify-otp` and `reset-password`.
- `plans.dfy` (`Plans`): create-time validation and defaults, partial update,
  and delete of plans.
- `payment.dfy` (`Payment`): the order's amount, currency and receipt, and the
  signature gate and crediting of `verify`.
- `passport.dfy` (`Passport`): the Google sign-in callback (find by Google id,
  else link by e-mail, else create) and the (de)serialisation of users by id.

The handlers are module-level methods that take the `Db` object and may
change only the tables their `modifies` clauses name. Each one states the whole new
state of those tables in terms of pure functions: `DailyReset`,
`Upsert`, `CompleteTask`, `Fanout`, `CheckOtp`, `ApplyUpdate`, `Credit`,
`GoogleDecision` and others. The properties the code promises are proved as
lemmas about those functions.

Outside inputs are parameters of the handlers:

- the clock, as milliseconds since the epoch;
- the random draw behind the one-time code;
- the fresh UUID of a created row;
- the token decoder of the handshake;
- the HMAC digest of the payment gateway.

Design notes:

- **Dates.** The day key `YYYY-MM-DD` (UTC) is represented by the UTC day
  number. Two instants get the same key exactly when they share a UTC day,
  which is all the code compares.
- **`task_complete` does not reset.** The `task_complete` handler does not
  reset a counter stamped with an earlier day. It adds one to the stored value
  and stamps today. The model follows the code: `CompleteTask` has no reset,
  and `StaleCounterCarriesOver` states the consequence. A socket that stays
  connected past midnight carries yesterday's count into today, and a later
  reconnect that day no longer clears it.
- **Users table columns.** The Users table is modelled with the columns the
  routes read and write: `googleId`, `authProvider`, `profilePicture` and the
  three reset columns. A Google user's password is null.
  `models/User.js:22-25` declares the password NOT NULL and lists none of those
  columns. The model follows the routes.

## Model

| member | source | states |
|---|---|---|
| Records.OrElse | index.js:72-73 | `a \|\| b` on strings is `a` unless `a` is empty; empty only when both are |
| Records.Truthy | routes/plans.js:39 | JavaScript truthiness of a body field: absent and `null` are falsy, a number exactly when non-zero, a string exactly when non-empty |
| Records.DecimalString | routes/forgotPassword.js:38 | `toString()` of a natural number below 10^21 (the range of the codes and timestamps printed): at least one character, all decimal digits, no leading zero |
| Records.Value | routes/forgotPassword.js:38 | the number a digit string denotes; a single digit denotes itself |
| Records.DecimalStringValue | routes/forgotPassword.js:38 | reading the printed digits back gives the number printed |
| Records.DecimalLength | routes/forgotPassword.js:38 | a number between 10^k and 10^(k+1) prints as exactly k+1 digits |
| Records.DecimalStringInjective | routes/payment.js:33 | two numbers that print the same are equal |
| Store.Matches | config/passport.js:29-37 | an e-mail key matches exactly the row with that e-mail; a Google-id key matches exactly the row holding that id, never a row without one |
| Store.UniqueColumnsDetermineLookup | models/User.js:14-21 | with unique e-mails and Google ids, every `findOne` key matches at most one row |
| Store.Lookup | routes/forgotPassword.js:19 | the row `findOne` returns matches the key and is in the table; no result means no row matches |
| Store.FindOne | config/passport.js:29 | the scan of the Users table returns exactly the unique matching row, or none |
| Store.PlanOf | index.js:85-87 | `user.Plan` is present exactly when the user's planId names an existing plan, and is that plan |
| Realtime.DateKey | index.js:69 | the day key of an instant is the UTC day containing it |
| Realtime.DateKeyNamesTheDay | index.js:69 | an instant has key d if and only if it lies in day d's 86 400 000 ms |
| Realtime.Authenticate | index.js:71-99 | no token (auth or query) is the first error, then no device id, then a token that does not decode, then an unknown user; success exactly when a token and a device id are given and the token decodes to an existing user |
| Realtime.AuthFieldsTakePrecedence | index.js:72-73 | with both `auth` fields set, the query-string fields have no effect on the outcome |
| Realtime.ConnectLimits | index.js:116-122 | 1 device and 5 uses a day without a plan, the plan's values with one |
| Realtime.TaskLimit | index.js:170 | the limit `task_complete` recomputes equals the daily limit chosen on connect |
| Realtime.DevicesOf | index.js:126-127 | a user's distinct devices are never more than the session rows |
| Realtime.DevicesOfBound | index.js:126-127 | the same bound, by induction on the rows |
| Realtime.CollectDevices | index.js:126-127 | the loop collects exactly the distinct device ids of the user's session rows |
| Realtime.Admits | index.js:130-131 | a known device is always admitted; a new device is admitted exactly when the distinct-device count is below maxDevices; an admitted device never takes the device set above the larger of its size and maxDevices |
| Realtime.Selects | index.js:141 | a device clause picks exactly the rows of that user and device; a socket clause exactly the rows of that socket |
| Realtime.Destroy | index.js:141 | a destroy never adds rows; which rows go is `Realtime.DestroyRemovesSelected` |
| Realtime.Upsert | index.js:141-148 | the new row is last and the table grows by at most one row; the rest is `Realtime.UpsertBindsDevice` |
| Realtime.DestroyRemovesSelected | index.js:141 | a destroy removes every selected row and keeps every other row with its multiplicity |
| Realtime.UpsertBindsDevice | index.js:141-148 | after the upsert the device has exactly one row, the new socket's; other devices' and users' rows are kept |
| Realtime.UpsertDevices | index.js:141-148 | the upsert adds the device to its user's device set and changes no other user's set |
| Realtime.AdmissionRespectsDeviceLimit | index.js:127-148 | an admitted known device leaves the device set unchanged; a new one adds exactly one and stays within maxDevices |
| Realtime.DisconnectShrinksDevices | index.js:209-212 | removing a socket's rows never adds a device to any user |
| Realtime.DestroyKeepsOneRowPerDevice | index.js:211 | a destroy keeps at most one row per (user, device) |
| Realtime.UpsertKeepsOneRowPerDevice | index.js:141-148 | the upsert keeps at most one row per (user, device) |
| Realtime.DailyReset | index.js:109-113 | afterwards the date is today; usage is 0 if the stamp was another day, otherwise unchanged; nothing else changes |
| Realtime.CompleteTask | index.js:167-180 | refused exactly when usage has reached the limit; otherwise usage rises by one and the date becomes today, with no reset first |
| Realtime.UsageSaturatesAtLimit | index.js:172-180 | from usage U at most L, n signals leave usage min(U+n, L): never above the limit, no signal lost below it |
| Realtime.StaleCounterCarriesOver | index.js:178-179 | a counter stamped with an earlier day keeps counting from its old value and is then no longer reset that day |
| Realtime.FirstWord | index.js:160 | the first name is a prefix of the name with no space, followed by a space or the end |
| Realtime.Greeting | index.js:150-161 | one or two messages, the last one `init_state` to the socket with usage, limit, plan name and first name |
| Realtime.SendGreeting | index.js:150-161 | the log grows by exactly the greeting |
| Realtime.Fanout | index.js:190-198 | no more updates than session rows; the targets are `Realtime.FanoutTargets` |
| Realtime.PlanName | index.js:159 | the plan's name with a plan, "Free Tier" without |
| Realtime.GreetingAnnouncesLimit | index.js:150-161 | the admitted socket alone is greeted; `limit_reached` comes exactly when usage is at or above the limit, and no other message is sent (two messages then, one otherwise); `init_state` comes last with usage, limit, plan name and first name |
| Realtime.FanoutTargets | index.js:190-198 | the broadcast reaches every socket of the user's rows except the originating one, sends the same update, and reaches no other socket |
| Realtime.ScenarioDailyRollover | index.js:109-180 | yesterday's 4 uses are forgotten on connect; then five tasks reach 5 and the sixth is refused |
| Realtime.ScenarioSecondDeviceRefused | index.js:126-137 | on the free tier a second device of the same user is refused once the first is admitted |
| Realtime.Connect | index.js:71-161 | handshake failure changes nothing; the reset is saved even if the device is then refused; a refusal adds no row, emits the error and closes the socket; admission upserts the row and greets; one row per device is kept |
| Realtime.Broadcast | index.js:190-198 | the loop appends exactly the fan-out of the user's rows to the log |
| Realtime.TaskComplete | index.js:164-202 | at the limit only `limit_reached` is sent; otherwise the count is saved, the socket is updated, the other sockets get the update, and `limit_reached` follows when the new count reaches the limit |
| Realtime.Disconnect | index.js:209-212 | exactly the closing socket's rows are removed; one row per device is kept; no user gains a device |
| ForgotPassword.InvalidOtpMessage | routes/forgotPassword.js:113 | the wrong-code reply is the fixed prefix, the remaining attempts in decimal digits that read back as that number, and the fixed suffix |
| ForgotPassword.UsesGoogleLogin | routes/forgotPassword.js:30 | an account is refused a code exactly when its provider is `google`; a local account never is |
| ForgotPassword.OtpCode | routes/forgotPassword.js:38 | the drawn code lies in 100000..999999 |
| ForgotPassword.SixDigitOtp | routes/forgotPassword.js:38 | the code as sent and hashed is six decimal digits |
| ForgotPassword.IssueOtp | routes/forgotPassword.js:44-50 | the hash of the code, a deadline ten minutes ahead, zero attempts; no other column changes |
| ForgotPassword.CheckOtp | routes/forgotPassword.js:85-106 | missing code or deadline first; expired exactly when both are set and the time is past the deadline, even at the cap; locked exactly when on time with 5 or more attempts; the code is accepted exactly when it matches, is on time and attempts are below 5 |
| ForgotPassword.AfterGuess | routes/forgotPassword.js:105-116 | only a wrong code changes state, adding one attempt |
| ForgotPassword.AttemptsNeverExceedCap | routes/forgotPassword.js:99-115 | over any run of verify calls attempts never decrease, never exceed 5, and nothing else changes |
| ForgotPassword.LockedStaysLocked | routes/forgotPassword.js:99-103 | at 5 attempts no call changes anything and no code is accepted |
| ForgotPassword.WrongGuessesCount | routes/forgotPassword.js:108-111 | each wrong code before the deadline costs exactly one attempt |
| ForgotPassword.FiveWrongGuessesLock | routes/forgotPassword.js:99-111 | five wrong codes after a request lock out the right code too |
| ForgotPassword.FreshOtpVerifies | routes/forgotPassword.js:44-106 | the code just issued verifies until its deadline and is expired after it; any other code is wrong |
| ForgotPassword.CorrectOtpIsReusable | routes/forgotPassword.js:106-128 | a correct code is not consumed and keeps verifying until its deadline |
| ForgotPassword.JwtVerify | routes/forgotPassword.js:161 | a token verifies exactly when it is signed and its expiry is still ahead |
| ForgotPassword.ResetToken | routes/forgotPassword.js:119-123 | the token names the user and the reset purpose, is valid now and invalid fifteen minutes later |
| ForgotPassword.CheckResetRequest | routes/forgotPassword.js:145-173 | accepted exactly with both fields, a password of 6 or more, a verifying token and the reset purpose; the result is the token's user id |
| ForgotPassword.SetPassword | routes/forgotPassword.js:182-189 | the new password's hash is stored and the code, deadline and attempts are cleared; nothing else changes |
| ForgotPassword.VerifiedTokenResets | routes/forgotPassword.js:119-173 | a token earned with a correct code, used within 15 minutes with a long enough password, resets that user |
| ForgotPassword.LoginTokenRefused | routes/forgotPassword.js:168-173 | a validly signed token without the reset purpose is refused |
| ForgotPassword.ResetClearsOtp | routes/forgotPassword.js:185-189 | after a reset no code verifies until a new one is requested |
| ForgotPassword.RequestOtp | routes/forgotPassword.js:11-66 | empty e-mail is 400; an unknown e-mail gets the generic 200 with no change; a Google account is 400 with no change; otherwise the code is issued and mailed |
| ForgotPassword.VerifyOtp | routes/forgotPassword.js:70-137 | missing fields or unknown e-mail are 400; each check's message; a wrong code adds one attempt and reports 5 minus attempts remaining; a correct one returns a reset token |
| ForgotPassword.ResetPassword | routes/forgotPassword.js:141-202 | each failed check is 400 with its message and no change; an unknown user is 404; otherwise the password is set and the code cleared |
| Plans.CreateCheck | routes/plans.js:39-49 | a body is accepted exactly when the name is non-empty and price and credits are numbers above zero; a falsy name, price or credits is "required", else a price that is no non-negative number is the price error, else such credits are the credits error |
| Plans.NumberOr | routes/plans.js:57-58 | `x \|\| d` on a number: an absent or zero value takes the default |
| Plans.NewPlan | routes/plans.js:51-59 | the created plan has the body's name, price and credits, currency or INR, features or [], maxDevices or 1, dailyLimit or 100, and 30 days |
| Plans.ZeroFieldsTakeDefaults | routes/plans.js:54-58 | a supplied 0 device count, 0 daily limit or empty currency is replaced like an absent one |
| Plans.NonNegativeNumber | routes/plans.js:43 | a value passes exactly when it is a number and not below zero; no other JSON type passes |
| Plans.UpdateCheck | routes/plans.js:79-85 | an update is accepted exactly when price and credits, where given, are non-negative numbers |
| Plans.ApplyUpdate | routes/plans.js:88-94 | id and duration are kept; a given price or credits is non-negative; the field-by-field statement is `Plans.UpdateChangesOnlyGivenFields` |
| Plans.EmptyUpdateIsIdentity | routes/plans.js:88-94 | an empty body is accepted and changes nothing |
| Plans.UpdateIsIdempotent | routes/plans.js:88-94 | applying the same update twice equals applying it once |
| Plans.UpdateChangesOnlyGivenFields | routes/plans.js:88-94 | each field takes the body's value exactly when the body has it; id and duration never change |
| Plans.ZeroPriceOnlyThroughUpdate | routes/plans.js:39-85 | price 0 is refused by create and accepted by update |
| Plans.CreateBodyIsValidUpdate | routes/plans.js:39-94 | every body create accepts is also a valid update, with the same name, price and credits |
| Plans.CreatePlan | routes/plans.js:34-66 | a refused body is 400 with its message and no change; otherwise a 201 and the new plan stored under the fresh id |
| Plans.UpdatePlan | routes/plans.js:69-103 | unknown id is 404 and a failed check is 400, both with no change; otherwise the plan becomes the updated one |
| Plans.DeletePlan | routes/plans.js:106-121 | unknown id is 404 with no change; otherwise exactly that plan is removed |
| Plans.DeletedPlanFallsBackToFreeTier | routes/plans.js:114 | a subscriber of a deleted plan gets the free tier's 1 device and 5 uses |
| Payment.OrderFor | routes/payment.js:19-45 | unknown plan is 404; the order amount is the plan's price, the currency the plan's or INR, the receipt `receipt_` and the time in digits |
| Payment.ReceiptsNameTheirInstant | routes/payment.js:33 | orders placed at different milliseconds have different receipts |
| Payment.SignedText | routes/payment.js:58-59 | the signed text is the order id, a bar, and the payment id: its prefix before the bar is the order id and its suffix after it the payment id |
| Payment.Legit | routes/payment.js:58-64 | a request passes exactly when the digest of order id, bar and payment id equals its signature |
| Payment.OnlyTheDigestPasses | routes/payment.js:58-64 | once a request passes, any other signature for the same ids fails |
| Payment.Credit | routes/payment.js:85-87 | credits rise by exactly the plan's credits and the plan is assigned; nothing else changes, daily usage included |
| Payment.Receipt | routes/payment.js:74-82 | the recorded row has status success, the plan's price, and the request's ids and signature |
| Payment.ReplayCreditsTwice | routes/payment.js:58-87 | nothing marks a payment as used: crediting twice adds the credits twice |
| Payment.PurchaseAppliesPlanLimits | routes/payment.js:85-87 | after a purchase the buyer's counter is untouched and the next connect and task use the bought plan's limits |
| Payment.VerifyPayment | routes/payment.js:48-99 | a bad signature is 400 and a missing user or plan is 404, both with no change; otherwise one success row is appended and the user credited |
| Passport.FirstPhoto | config/passport.js:43 | the first photo if there is a non-empty one, otherwise null |
| Passport.LinkGoogle | config/passport.js:41-43 | linking sets the Google id, the provider `google` and the photo; nothing else changes |
| Passport.NewGoogleUser | config/passport.js:49-56 | the new row has the profile's e-mail, name, Google id and first photo, provider `google` and no password; credits and daily usage take their schema default of 0; no plan and no usage date; this model also sets the reset code and deadline to none and the attempts to 0, columns the schema does not declare |
| Passport.GoogleDecision | config/passport.js:26-62 | an existing holder of the Google id exactly when one exists; otherwise an error exactly when the profile has no e-mail or no photos; a link names the row with the profile's e-mail; a create uses the fresh id and happens only when no row has that e-mail |
| Passport.AfterGoogle | config/passport.js:26-62 | no row is removed; a returned existing user or an error leaves the table as it was; a link keeps the set of ids; a create adds exactly the fresh id |
| Passport.GoogleIdTakesPrecedence | config/passport.js:29-37 | a user holding the Google id is returned unchanged, whatever the e-mail lookup would find |
| Passport.GoogleKeepsTableSound | config/passport.js:26-62 | the callback keeps e-mails and Google ids unique and rows under their ids; a successful sign-in ends on a row holding the Google id |
| Passport.GoogleAccountsCannotRequestOtp | config/passport.js:41-53 | linked and created accounts are Google accounts, which request-otp refuses; linking keeps the old password |
| Passport.Serialize | config/passport.js:6-8 | only the user's id goes into the session |
| Passport.Deserialize | config/passport.js:11-18 | the row with that primary key, or null |
| Passport.SessionRoundTrip | config/passport.js:6-18 | a stored user comes back unchanged from its serialised id |
| Passport.GoogleVerify | config/passport.js:26-62 | googleId lookup first, then e-mail link, then create; a profile without e-mails or without photos reaching the link or create is an error with no change |

## Left out

- Socket.io and Express transport: the routes' `protect`/`authorize` middleware, response shapes beyond status and message, and console logging. An emit is an entry in `Db.outbox`; `socket.disconnect()` adds the socket to `Db.closed`.
- Concurrency: each handler is one atomic step. The read-then-save race on `dailyUsage` and the count-then-insert race on sessions are not modelled, and no race freedom is claimed.
- Clock, randomness and fresh ids are parameters. `getTodayDateKey`'s text form is replaced by the UTC day number.
- Cryptography is represented by stand-ins. bcrypt is the `Bcrypt` datatype, with no salt and no one-wayness. `jwt.sign`/`jwt.verify` is the `Jwt` datatype with a signature flag, at millisecond rather than second precision. The handshake's token check is a `decode` function, and HMAC-SHA256 is an `hmac` function.
- The gateway's order call, the 500 on a missing order, and the e-mail send are left out. `RequestOtp` returns the mail it would send. The 500 that follows when the send fails after the code was saved is not modelled.
- Realtime.Connect: the `catch` that disconnects the socket on a database error is not modelled, nor is any other persistence failure (the 500 replies of the routes).
- Realtime.Connect: its postcondition does not restate the device-count bound. That bound is `Realtime.AdmissionRespectsDeviceLimit`, about the same `Upsert` the method's postcondition names.
- Realtime.TaskComplete: a user row that vanished after connecting makes the handler throw. The model leaves the state unchanged, which is what the `catch` does.
- Request fields are strings or `Option` values. JSON `null` in an update body, non-string e-mails, codes or tokens, and floating-point prices or credits are not modelled. A password's length is counted in characters, not UTF-16 code units.
- `ON DELETE SET NULL` on users' and transactions' `planId` is not modelled. `Store.PlanOf` reads a dangling planId as no plan, which gives the same limits.
- Passport.GoogleVerify: assumes the Users table accepts the row with a null password. Under `models/User.js:22-25`, which declares the column NOT NULL, the create would raise and the callback would report an error.
- Records.DecimalString: prints every natural in plain digits; JavaScript switches to exponent form from 10^21 on, far above the codes and millisecond timestamps the routes print.
- Sequelize's NOT NULL, `isEmail` and type coercion on save are not modelled.

/**
 * The password-reset routes: `request-otp`, `verify-otp` and
 * `reset-password`. Per user the reset state is the hashed one-time code,
 * its deadline and the count of failed attempts; the three handlers are
 * transitions on that state and on the password hash.
 */
module ForgotPassword {
  import opened Records
  import opened Store

  const OtpTtlMs: int := 10 * 60 * 1000
  const MaxOtpAttempts: int := 5
  const ResetTokenTtlMs: int := 15 * 60 * 1000
  const MinPasswordLength: int := 6
  const ResetPurpose: string := "password-reset"

  const EmailRequired := "Email is required"
  const MaybeSent := "If this email exists, an OTP has been sent."
  const GoogleAccount := "This account uses Google login. Please sign in with Google."
  const OtpSent := "OTP has been sent to your email address."
  const EmailAndOtpRequired := "Email and OTP are required"
  const InvalidEmailOrOtp := "Invalid email or OTP"
  const NoOtpFound := "No OTP found. Please request a new one."
  const OtpExpired := "OTP has expired. Please request a new one."
  const TooManyAttempts := "Too many failed attempts. Please request a new OTP."
  const OtpVerified := "OTP verified successfully"
  const TokenAndPasswordRequired := "Reset token and new password are required"
  const PasswordTooShort := "Password must be at least 6 characters long"
  const InvalidOrExpiredToken := "Invalid or expired reset token"
  const InvalidResetToken := "Invalid reset token"
  const UserNotFound := "User not found"
  const PasswordReset := "Password reset successfully. You can now login with your new password."

  /** The reply to a wrong code: the attempts left, printed in decimal. */
  function InvalidOtpMessage(remaining: nat): (m: string)
    ensures |m| == |InvalidOtpPrefix| + |DecimalString(remaining)| + |InvalidOtpSuffix|
    ensures m[..|InvalidOtpPrefix|] == InvalidOtpPrefix
    ensures m[|m| - |InvalidOtpSuffix|..] == InvalidOtpSuffix
    ensures var digits := m[|InvalidOtpPrefix|..|m| - |InvalidOtpSuffix|];
      && (forall i :: 0 <= i < |digits| ==> '0' <= digits[i] <= '9')
      && Value(digits) == remaining
  {
    DecimalStringValue(remaining);
    var m := InvalidOtpPrefix + DecimalString(remaining) + InvalidOtpSuffix;
    assert m[|InvalidOtpPrefix|..|m| - |InvalidOtpSuffix|] == DecimalString(remaining);
    m
  }

  const InvalidOtpPrefix := "Invalid OTP. "
  const InvalidOtpSuffix := " attempts remaining."

  // ---------------------------------------------------------------------
  // Issuing a code
  // ---------------------------------------------------------------------

  /** `Math.floor(100000 + Math.random() * 900000)` for a draw in [0, 1). */
  function OtpCode(random: real): (code: int)
    requires 0.0 <= random < 1.0
    ensures 100000 <= code <= 999999
  {
    (100000.0 + random * 900000.0).Floor
  }

  /** The code, as sent and hashed, is always six decimal digits. */
  lemma SixDigitOtp(random: real)
    requires 0.0 <= random < 1.0
    ensures |DecimalString(OtpCode(random))| == 6
    ensures forall i :: 0 <= i < 6 ==> '0' <= DecimalString(OtpCode(random))[i] <= '9'
  {
    assert Pow10(5) == 100000 && Pow10(6) == 1000000;
    DecimalLength(OtpCode(random), 5);
  }

  /** Accounts created or linked through Google are refused a reset code. */
  predicate UsesGoogleLogin(u: User)
    ensures UsesGoogleLogin(u) <==> u.authProvider == "google"
    ensures u.authProvider == "local" ==> !UsesGoogleLogin(u)
  {
    u.authProvider == GoogleProvider
  }

  /** The state a successful request stores: the hash, a ten-minute deadline, no failed attempts. */
  function IssueOtp(u: User, otp: string, nowMs: int): (r: User)
    ensures r.resetOtp == Some(Bcrypt(otp))
    ensures r.resetOtpExpiry == Some(nowMs + OtpTtlMs)
    ensures r.resetOtpAttempts == 0
    ensures r.(resetOtp := u.resetOtp, resetOtpExpiry := u.resetOtpExpiry, resetOtpAttempts := u.resetOtpAttempts) == u
  {
    u.(resetOtp := Some(Bcrypt(otp)), resetOtpExpiry := Some(nowMs + OtpTtlMs), resetOtpAttempts := 0)
  }

  // ---------------------------------------------------------------------
  // Checking a code
  // ---------------------------------------------------------------------

  datatype OtpCheck = NoOtp | Expired | Locked | Wrong | Correct

  /**
   * The checks of `verify-otp` once the user is found: a stored code and
   * deadline, then the deadline, then the attempt cap, then the hash.
   */
  function CheckOtp(u: User, otp: string, nowMs: int): (r: OtpCheck)
    ensures r == NoOtp <==> u.resetOtp.None? || u.resetOtpExpiry.None?
    ensures r == Expired <==> u.resetOtp.Some? && u.resetOtpExpiry.Some? && nowMs > u.resetOtpExpiry.value
    ensures r == Locked <==>
      && u.resetOtp.Some? && u.resetOtpExpiry.Some? && nowMs <= u.resetOtpExpiry.value
      && u.resetOtpAttempts >= MaxOtpAttempts
    ensures r == Correct <==>
      && u.resetOtp == Some(Bcrypt(otp))
      && u.resetOtpExpiry.Some? && nowMs <= u.resetOtpExpiry.value
      && u.resetOtpAttempts < MaxOtpAttempts
    ensures r == Wrong <==>
      && u.resetOtp.Some? && u.resetOtp != Some(Bcrypt(otp))
      && u.resetOtpExpiry.Some? && nowMs <= u.resetOtpExpiry.value
      && u.resetOtpAttempts < MaxOtpAttempts
  {
    if u.resetOtp.None? || u.resetOtpExpiry.None? then NoOtp
    else if nowMs > u.resetOtpExpiry.value then Expired
    else if u.resetOtpAttempts >= MaxOtpAttempts then Locked
    else if u.resetOtp.value == Bcrypt(otp) then Correct
    else Wrong
  }

  /** The stored state after one `verify-otp` call: only a wrong code changes it. */
  function AfterGuess(u: User, otp: string, nowMs: int): (r: User)
    ensures CheckOtp(u, otp, nowMs) == Wrong ==> r == u.(resetOtpAttempts := u.resetOtpAttempts + 1)
    ensures CheckOtp(u, otp, nowMs) != Wrong ==> r == u
  {
    if CheckOtp(u, otp, nowMs) == Wrong then u.(resetOtpAttempts := u.resetOtpAttempts + 1) else u
  }

  /** One `verify-otp` request for a user: the code typed and the time it arrives. */
  datatype Guess = Guess(otp: string, nowMs: int)

  function AfterGuesses(u: User, gs: seq<Guess>): User
    decreases |gs|
  {
    if |gs| == 0 then u else AfterGuesses(AfterGuess(u, gs[0].otp, gs[0].nowMs), gs[1..])
  }

  /**
   * The counter only moves up, by one per wrong code, and never past the
   * cap: a wrong code is counted only while the counter is below it. No
   * other column changes.
   */
  lemma {:induction false} AttemptsNeverExceedCap(u: User, gs: seq<Guess>)
    requires u.resetOtpAttempts <= MaxOtpAttempts
    ensures u.resetOtpAttempts <= AfterGuesses(u, gs).resetOtpAttempts <= MaxOtpAttempts
    ensures AfterGuesses(u, gs) == u.(resetOtpAttempts := AfterGuesses(u, gs).resetOtpAttempts)
    decreases |gs|
  {
    if |gs| > 0 {
      AttemptsNeverExceedCap(AfterGuess(u, gs[0].otp, gs[0].nowMs), gs[1..]);
    }
  }

  /** Once the cap is reached no request changes anything and no code is accepted. */
  lemma {:induction false} LockedStaysLocked(u: User, gs: seq<Guess>, otp: string, nowMs: int)
    requires u.resetOtpAttempts >= MaxOtpAttempts
    ensures AfterGuesses(u, gs) == u
    ensures CheckOtp(AfterGuesses(u, gs), otp, nowMs) != Correct
    decreases |gs|
  {
    if |gs| > 0 {
      LockedStaysLocked(u, gs[1..], otp, nowMs);
    }
  }

  /** Each wrong code before the deadline costs exactly one attempt. */
  lemma {:induction false} WrongGuessesCount(u: User, code: string, gs: seq<Guess>)
    requires u.resetOtp == Some(Bcrypt(code)) && u.resetOtpExpiry.Some?
    requires u.resetOtpAttempts >= 0 && u.resetOtpAttempts + |gs| <= MaxOtpAttempts
    requires forall i :: 0 <= i < |gs| ==> gs[i].otp != code && gs[i].nowMs <= u.resetOtpExpiry.value
    ensures AfterGuesses(u, gs) == u.(resetOtpAttempts := u.resetOtpAttempts + |gs|)
    decreases |gs|
  {
    if |gs| > 0 {
      var v := AfterGuess(u, gs[0].otp, gs[0].nowMs);
      assert v == u.(resetOtpAttempts := u.resetOtpAttempts + 1);
      WrongGuessesCount(v, code, gs[1..]);
    }
  }

  /** Five wrong codes after a request lock the account out of the right one too. */
  lemma FiveWrongGuessesLock(u: User, code: string, issuedMs: int, gs: seq<Guess>, nowMs: int)
    requires |gs| == MaxOtpAttempts
    requires forall i :: 0 <= i < |gs| ==> gs[i].otp != code && gs[i].nowMs <= issuedMs + OtpTtlMs
    requires nowMs <= issuedMs + OtpTtlMs
    ensures AfterGuesses(IssueOtp(u, code, issuedMs), gs).resetOtpAttempts == MaxOtpAttempts
    ensures CheckOtp(AfterGuesses(IssueOtp(u, code, issuedMs), gs), code, nowMs) == Locked
  {
    WrongGuessesCount(IssueOtp(u, code, issuedMs), code, gs);
  }

  /** The code just issued verifies until its deadline and expires after it; any other code is wrong. */
  lemma FreshOtpVerifies(u: User, code: string, issuedMs: int, otp: string, nowMs: int)
    ensures nowMs <= issuedMs + OtpTtlMs ==>
      CheckOtp(IssueOtp(u, code, issuedMs), otp, nowMs) == (if otp == code then Correct else Wrong)
    ensures nowMs > issuedMs + OtpTtlMs ==> CheckOtp(IssueOtp(u, code, issuedMs), otp, nowMs) == Expired
  {
  }

  /**
   * A correct code is not consumed: the same code keeps verifying, and
   * keeps minting reset tokens, until its deadline.
   */
  lemma CorrectOtpIsReusable(u: User, otp: string, nowMs: int, laterMs: int)
    requires CheckOtp(u, otp, nowMs) == Correct
    requires nowMs <= laterMs <= u.resetOtpExpiry.value
    ensures AfterGuess(u, otp, nowMs) == u
    ensures CheckOtp(AfterGuess(u, otp, nowMs), otp, laterMs) == Correct
  {
  }

  // ---------------------------------------------------------------------
  // Reset tokens
  // ---------------------------------------------------------------------

  /** The payload of a signed token; login tokens carry no purpose. */
  datatype Claims = Claims(id: UserId, email: string, purpose: Option<string>)

  /**
   * A token as `jwt.verify` sees it: its claims, its expiry, and whether
   * its signature checks out under the server's secret.
   */
  datatype Jwt = Jwt(claims: Claims, expiresAtMs: int, signed: bool)

  /** `jwt.verify`: a good signature and an expiry still in the future. */
  predicate JwtVerify(t: Jwt, nowMs: int)
    ensures !t.signed ==> !JwtVerify(t, nowMs)
    ensures nowMs >= t.expiresAtMs ==> !JwtVerify(t, nowMs)
    ensures t.signed && nowMs < t.expiresAtMs ==> JwtVerify(t, nowMs)
  {
    t.signed && nowMs < t.expiresAtMs
  }

  /** The token a correct code earns: id, email, the reset purpose, fifteen minutes. */
  function ResetToken(u: User, nowMs: int): (t: Jwt)
    ensures t.claims.id == u.id && t.claims.purpose == Some(ResetPurpose)
    ensures JwtVerify(t, nowMs) && !JwtVerify(t, nowMs + ResetTokenTtlMs)
  {
    Jwt(Claims(u.id, u.email, Some(ResetPurpose)), nowMs + ResetTokenTtlMs, true)
  }

  /**
   * The checks of `reset-password` before the user is read, in order:
   * both fields present, the password long enough, the token valid, the
   * purpose right. The result is the user id the token names.
   */
  function CheckResetRequest(token: Option<Jwt>, newPassword: string, nowMs: int): (r: Result<UserId, string>)
    ensures r.Ok? <==>
      && token.Some? && newPassword != ""
      && |newPassword| >= MinPasswordLength
      && JwtVerify(token.value, nowMs)
      && token.value.claims.purpose == Some(ResetPurpose)
    ensures r.Ok? ==> r.value == token.value.claims.id
    ensures token.Some? && newPassword != "" && |newPassword| < MinPasswordLength ==> r == Err(PasswordTooShort)
  {
    if token.None? || newPassword == "" then Err(TokenAndPasswordRequired)
    else if |newPassword| < MinPasswordLength then Err(PasswordTooShort)
    else if !JwtVerify(token.value, nowMs) then Err(InvalidOrExpiredToken)
    else if token.value.claims.purpose != Some(ResetPurpose) then Err(InvalidResetToken)
    else Ok(token.value.claims.id)
  }

  /** The new password hash, with every trace of the reset code cleared. */
  function SetPassword(u: User, newPassword: string): (r: User)
    ensures r.password == Some(Bcrypt(newPassword))
    ensures r.resetOtp.None? && r.resetOtpExpiry.None? && r.resetOtpAttempts == 0
    ensures r.(password := u.password, resetOtp := u.resetOtp, resetOtpExpiry := u.resetOtpExpiry, resetOtpAttempts := u.resetOtpAttempts) == u
  {
    u.(password := Some(Bcrypt(newPassword)), resetOtp := None, resetOtpExpiry := None, resetOtpAttempts := 0)
  }

  /** A token earned with a correct code, used in time with a long enough password, is accepted. */
  lemma VerifiedTokenResets(u: User, otp: string, verifiedMs: int, newPassword: string, nowMs: int)
    requires CheckOtp(u, otp, verifiedMs) == Correct
    requires |newPassword| >= MinPasswordLength
    requires verifiedMs <= nowMs < verifiedMs + ResetTokenTtlMs
    ensures CheckResetRequest(Some(ResetToken(u, verifiedMs)), newPassword, nowMs) == Ok(u.id)
  {
  }

  /** A login token, which carries no purpose, never resets a password. */
  lemma LoginTokenRefused(claims: Claims, expiresAtMs: int, newPassword: string, nowMs: int)
    requires claims.purpose.None?
    ensures CheckResetRequest(Some(Jwt(claims, expiresAtMs, true)), newPassword, nowMs).Err?
  {
  }

  /** After a reset no code verifies until a new one is requested. */
  lemma ResetClearsOtp(u: User, newPassword: string, otp: string, nowMs: int)
    ensures CheckOtp(SetPassword(u, newPassword), otp, nowMs) == NoOtp
  {
  }

  // ---------------------------------------------------------------------
  // Handlers
  // ---------------------------------------------------------------------

  /** The e-mail `sendOTP` would send: recipient, code, and the name in the greeting. */
  datatype OtpMail = OtpMail(to: string, otp: string, name: string)

  /** `POST /request-otp`. `random` is the draw of `Math.random()`. */
  method RequestOtp(db: Db, email: string, random: real, nowMs: int) returns (reply: Reply, mail: Option<OtpMail>)
    requires AtMostOne(db.users, ByEmail(email))
    requires 0.0 <= random < 1.0
    modifies db`users
    ensures email == "" ==> reply == Reply(400, EmailRequired) && mail.None? && db.users == old(db.users)
    ensures email != "" && Lookup(old(db.users), ByEmail(email)).None? ==>
      reply == Reply(200, MaybeSent) && mail.None? && db.users == old(db.users)
    ensures email != "" && Lookup(old(db.users), ByEmail(email)).Some? ==>
      var uid := Lookup(old(db.users), ByEmail(email)).value;
      var u := old(db.users)[uid];
      var code := DecimalString(OtpCode(random));
      if UsesGoogleLogin(u) then
        reply == Reply(400, GoogleAccount) && mail.None? && db.users == old(db.users)
      else
        && reply == Reply(200, OtpSent)
        && mail == Some(OtpMail(email, code, u.name))
        && db.users == old(db.users)[uid := IssueOtp(u, code, nowMs)]
  {
    if email == "" {
      return Reply(400, EmailRequired), None;
    }
    var found := FindOne(db.users, ByEmail(email));
    if found.None? {
      return Reply(200, MaybeSent), None;
    }
    var uid := found.value;
    var user := db.users[uid];
    if user.authProvider == GoogleProvider {
      return Reply(400, GoogleAccount), None;
    }
    var otp := DecimalString(OtpCode(random));
    user := user.(resetOtp := Some(Bcrypt(otp)));
    user := user.(resetOtpExpiry := Some(nowMs + OtpTtlMs));
    user := user.(resetOtpAttempts := 0);
    db.users := db.users[uid := user];
    mail := Some(OtpMail(email, otp, user.name));
    reply := Reply(200, OtpSent);
  }

  /** The body of a `verify-otp` response. */
  datatype VerifyReply = VerifyReply(status: int, message: string, resetToken: Option<Jwt>)

  /** `POST /verify-otp`. */
  method VerifyOtp(db: Db, email: string, otp: string, nowMs: int) returns (reply: VerifyReply)
    requires AtMostOne(db.users, ByEmail(email))
    modifies db`users
    ensures email == "" || otp == "" ==>
      reply == VerifyReply(400, EmailAndOtpRequired, None) && db.users == old(db.users)
    ensures email != "" && otp != "" && Lookup(old(db.users), ByEmail(email)).None? ==>
      reply == VerifyReply(400, InvalidEmailOrOtp, None) && db.users == old(db.users)
    ensures email != "" && otp != "" && Lookup(old(db.users), ByEmail(email)).Some? ==>
      var uid := Lookup(old(db.users), ByEmail(email)).value;
      var u := old(db.users)[uid];
      && db.users == old(db.users)[uid := AfterGuess(u, otp, nowMs)]
      && reply == match CheckOtp(u, otp, nowMs)
         case NoOtp => VerifyReply(400, NoOtpFound, None)
         case Expired => VerifyReply(400, OtpExpired, None)
         case Locked => VerifyReply(400, TooManyAttempts, None)
         case Wrong => VerifyReply(400, InvalidOtpMessage(MaxOtpAttempts - (u.resetOtpAttempts + 1)), None)
         case Correct => VerifyReply(200, OtpVerified, Some(ResetToken(u, nowMs)))
  {
    if email == "" || otp == "" {
      return VerifyReply(400, EmailAndOtpRequired, None);
    }
    var found := FindOne(db.users, ByEmail(email));
    if found.None? {
      return VerifyReply(400, InvalidEmailOrOtp, None);
    }
    var uid := found.value;
    var user := db.users[uid];
    assert db.users == db.users[uid := user];
    if user.resetOtp.None? || user.resetOtpExpiry.None? {
      return VerifyReply(400, NoOtpFound, None);
    }
    if nowMs > user.resetOtpExpiry.value {
      return VerifyReply(400, OtpExpired, None);
    }
    if user.resetOtpAttempts >= MaxOtpAttempts {
      return VerifyReply(400, TooManyAttempts, None);
    }
    if user.resetOtp.value != Bcrypt(otp) {
      user := user.(resetOtpAttempts := user.resetOtpAttempts + 1);
      db.users := db.users[uid := user];
      return VerifyReply(400, InvalidOtpMessage(MaxOtpAttempts - user.resetOtpAttempts), None);
    }
    reply := VerifyReply(200, OtpVerified, Some(ResetToken(user, nowMs)));
  }

  /** `POST /reset-password`. An absent or empty token is `None`. */
  method ResetPassword(db: Db, token: Option<Jwt>, newPassword: string, nowMs: int) returns (reply: Reply)
    modifies db`users
    ensures CheckResetRequest(token, newPassword, nowMs).Err? ==>
      reply == Reply(400, CheckResetRequest(token, newPassword, nowMs).error) && db.users == old(db.users)
    ensures CheckResetRequest(token, newPassword, nowMs).Ok? ==>
      var uid := CheckResetRequest(token, newPassword, nowMs).value;
      if uid !in old(db.users) then
        reply == Reply(404, UserNotFound) && db.users == old(db.users)
      else
        reply == Reply(200, PasswordReset) && db.users == old(db.users)[uid := SetPassword(old(db.users)[uid], newPassword)]
  {
    if token.None? || newPassword == "" {
      return Reply(400, TokenAndPasswordRequired);
    }
    if |newPassword| < MinPasswordLength {
      return Reply(400, PasswordTooShort);
    }
    if !JwtVerify(token.value, nowMs) {
      return Reply(400, InvalidOrExpiredToken);
    }
    var decoded := token.value.claims;
    if decoded.purpose != Some(ResetPurpose) {
      return Reply(400, InvalidResetToken);
    }
    if decoded.id !in db.users {
      return Reply(404, UserNotFound);
    }
    var user := db.users[decoded.id];
    user := user.(password := Some(Bcrypt(newPassword)));
    user := user.(resetOtp := None, resetOtpExpiry := None);
    user := user.(resetOtpAttempts := 0);
    db.users := db.users[decoded.id := user];
    reply := Reply(200, PasswordReset);
  }
}

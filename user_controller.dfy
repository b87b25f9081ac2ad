/** The account handlers of the backend server: registration, e-mail
    verification, login with token issuance, logout, refresh-token rotation,
    password reset and re-sending the verification link.

    The user collection is a sequence of accounts in insertion order; an
    account's id is its index, so Mongo's `findOne` (the first document in
    natural order) is `Seqs.FirstIndex`. Each handler is given twice: as a
    transition function on the collection (`Register`, `Login`, ...), which
    the lemmas at the end reason about, and as a method of `UserStore` that
    updates the record's fields in place the way the handler does. */
module UserController {
  import opened Api
  import Seqs
  import Strings

  /** The fields of a user document the handlers read or write. */
  datatype Account = Account(
    email: string,
    username: string,
    fullname: string,
    password: string,
    isEmailVerified: bool,
    emailVerificationToken: Option<string>,
    emailVerificationExpiry: Option<int>,
    refreshToken: Option<string>)

  /** What the model's `generateTemporaryToken` returns: the token mailed to
      the user, its SHA-256 digest kept in the database, and its expiry. */
  datatype TemporaryToken = TemporaryToken(unHashedToken: string, hashedToken: string, tokenExpiry: int)

  /** What `generateAccessToken` and `generateRefreshToken` return. */
  datatype TokenPair = TokenPair(accessToken: string, refreshToken: string)

  /** The registration response: the new id, the projected `username` and
      `email`, and the link put into the verification mail. */
  datatype Registration = Registration(id: nat, username: string, email: string, verificationUrl: string)

  /** A handler's effect: the collection afterwards and the response. */
  datatype Step<T> = Step(store: seq<Account>, result: Result<T>)

  const UserExists := ApiError(409, "User is alredy exist with this email.")
  const UnknownEmailAtLogin := ApiError(400, "User not found, Please register first.")
  const NotVerified := ApiError(401, "User is not verified, Please verify your self.")
  const WrongPassword := ApiError(401, "Invalid Password")
  const NoTicket := ApiError(404, "User not found")
  const NoRefreshCookie := ApiError(400, "Unauthorisezed user, Refresh Token not found.")
  const InvalidRefresh := ApiError(401, "Invalid or expired refresh token")
  const UnknownEmailAtReset := ApiError(404, "User not found.")
  const PasswordsDiffer := ApiError(402, "Password and Conform password are not match.")
  const MissingToken := RuntimeError("TypeError", "The \"data\" argument must be of type string")
  const SendEmailUnbound := RuntimeError("ReferenceError", "sendEmail is not defined")

  /** No two accounts share an e-mail address. */
  predicate UniqueEmails(s: seq<Account>) {
    forall i, j :: 0 <= i < j < |s| ==> s[i].email != s[j].email
  }

  /** `User.findOne({ email })`. */
  function IndexOfEmail(s: seq<Account>, email: string): (r: int)
    ensures -1 <= r < |s|
    ensures r >= 0 ==> s[r].email == email && forall j :: 0 <= j < r ==> s[j].email != email
    ensures r == -1 ==> forall j :: 0 <= j < |s| ==> s[j].email != email
  {
    Seqs.FirstIndex(s, (a: Account) => a.email == email)
  }

  /** The account satisfies the verification query: its stored token is
      `hashed` and its expiry lies strictly after `now`. */
  predicate Redeemable(a: Account, hashed: string, now: int) {
    a.emailVerificationToken == Some(hashed)
    && a.emailVerificationExpiry.Some? && a.emailVerificationExpiry.value > now
  }

  /** `User.findOne({ $and: [{ emailVerificationToken: hashed },
      { emailVerificationExpiry: { $gt: now } }] })`. */
  function IndexOfTicket(s: seq<Account>, hashed: string, now: int): (r: int)
    ensures -1 <= r < |s|
    ensures r >= 0 ==> Redeemable(s[r], hashed, now) && forall j :: 0 <= j < r ==> !Redeemable(s[j], hashed, now)
    ensures r == -1 ==> forall j :: 0 <= j < |s| ==> !Redeemable(s[j], hashed, now)
  {
    Seqs.FirstIndex(s, (a: Account) => Redeemable(a, hashed, now))
  }

  /** The account a fresh registration stores. */
  function NewAccount(email: string, fullname: string, password: string, username: string, ticket: TemporaryToken): Account {
    Account(email, Strings.ToLower(username), fullname, password, false,
            Some(ticket.hashedToken), Some(ticket.tokenExpiry), None)
  }

  /** The account after its ticket is redeemed. */
  function Verified(a: Account): Account {
    a.(isEmailVerified := true, emailVerificationToken := None, emailVerificationExpiry := None)
  }

  /** `registerUser`: a 409 when any account has the e-mail, otherwise a new
      unverified account holding the hashed ticket, and a link carrying the
      unhashed token. Only the e-mail is checked for uniqueness. */
  function Register(s: seq<Account>, email: string, fullname: string, password: string, username: string,
                    ticket: TemporaryToken, baseUrl: string): (t: Step<Registration>)
    ensures t.result.Err? <==> exists i :: 0 <= i < |s| && s[i].email == email
    ensures t.result.Err? ==> t.store == s && t.result.failure == UserExists
    ensures t.result.Ok? ==>
      && |t.store| == |s| + 1 && t.store[..|s|] == s
      && t.store[|s|] == NewAccount(email, fullname, password, username, ticket)
      && t.result.value == Registration(|s|, Strings.ToLower(username), email,
                                        baseUrl + "/users/verify-email?token=" + ticket.unHashedToken)
    ensures UniqueEmails(s) ==> UniqueEmails(t.store)
  {
    if IndexOfEmail(s, email) >= 0 then Step(s, Err(UserExists))
    else
      var a := NewAccount(email, fullname, password, username, ticket);
      Step(s + [a], Ok(Registration(|s|, a.username, email,
                                    baseUrl + "/users/verify-email?token=" + ticket.unHashedToken)))
  }

  /** `verifyEmail`: the presented token is hashed and redeemed on the first
      account whose stored digest equals it and whose expiry is later than
      `now`; that account becomes verified and loses its ticket. A missing
      query parameter makes `update(undefined)` throw. */
  function VerifyEmail(s: seq<Account>, token: Option<string>, now: int, sha256: string -> string): (t: Step<()>)
    ensures token.None? ==> t == Step(s, Err(MissingToken))
    ensures t.result.Ok? <==> token.Some? && exists i :: 0 <= i < |s| && Redeemable(s[i], sha256(token.value), now)
    ensures token.Some? && t.result.Err? ==> t == Step(s, Err(NoTicket))
    ensures t.result.Ok? ==> exists i :: 0 <= i < |s| && Redeemable(s[i], sha256(token.value), now)
                                          && t.store == s[i := Verified(s[i])]
  {
    if token.None? then Step(s, Err(MissingToken))
    else
      var i := IndexOfTicket(s, sha256(token.value), now);
      if i < 0 then Step(s, Err(NoTicket))
      else Step(s[i := Verified(s[i])], Ok(()))
  }

  /** `generateAccessAndRefreshTokens`: the pair is returned and its refresh
      half overwrites the stored one; nothing else changes. */
  function IssueTokens(s: seq<Account>, id: nat, tokens: TokenPair): (t: Step<TokenPair>)
    requires id < |s|
    ensures t.result == Ok(tokens)
    ensures |t.store| == |s| && t.store[id].refreshToken == Some(tokens.refreshToken)
    ensures t.store[id] == s[id].(refreshToken := t.store[id].refreshToken)
    ensures forall j :: 0 <= j < |s| && j != id ==> t.store[j] == s[j]
  {
    Step(s[id := s[id].(refreshToken := Some(tokens.refreshToken))], Ok(tokens))
  }

  /** `loginUser`: rejects an unknown e-mail (400), then an unverified
      account (401), then a wrong password (401); a rejection changes nothing.
      Otherwise tokens are issued to the account. */
  function Login(s: seq<Account>, email: string, password: string,
                 passwordMatches: (string, string) -> bool, tokens: TokenPair): (t: Step<TokenPair>)
    ensures IndexOfEmail(s, email) < 0 ==> t == Step(s, Err(UnknownEmailAtLogin))
    ensures var i := IndexOfEmail(s, email);
      i >= 0 && !s[i].isEmailVerified ==> t == Step(s, Err(NotVerified))
    ensures var i := IndexOfEmail(s, email);
      i >= 0 && s[i].isEmailVerified && !passwordMatches(s[i].password, password) ==> t == Step(s, Err(WrongPassword))
    ensures t.result.Ok? <==>
      var i := IndexOfEmail(s, email); i >= 0 && s[i].isEmailVerified && passwordMatches(s[i].password, password)
    ensures t.result.Ok? ==> t == IssueTokens(s, IndexOfEmail(s, email), tokens)
  {
    var i := IndexOfEmail(s, email);
    if i < 0 then Step(s, Err(UnknownEmailAtLogin))
    else if !s[i].isEmailVerified then Step(s, Err(NotVerified))
    else if !passwordMatches(s[i].password, password) then Step(s, Err(WrongPassword))
    else IssueTokens(s, i, tokens)
  }

  /** `logoutUser`: the caller's refresh token becomes `""`. `updateOne`
      always yields a result object, so the 401 branch is never taken. */
  function Logout(s: seq<Account>, id: nat): (t: Step<()>)
    ensures t.result == Ok(())
    ensures |t.store| == |s|
    ensures id < |s| ==> t.store == s[id := s[id].(refreshToken := Some(""))]
    ensures id >= |s| ==> t.store == s
  {
    if id < |s| then Step(s[id := s[id].(refreshToken := Some(""))], Ok(()))
    else Step(s, Ok(()))
  }

  /** `refreshAccessToken` as written: the `const { accessToken, refreshToken }`
      of the `try` block shadows the cookie, so `jwt.verify(refreshToken, ...)`
      reads the inner constant before its declaration and throws; the catch
      turns that into 401. Every request with a cookie fails, and nothing is
      rotated. */
  function RefreshAsWritten(s: seq<Account>, cookie: Option<string>): (t: Step<TokenPair>)
    ensures t.store == s && t.result.Err?
    ensures !Truthy(cookie) <==> t.result.failure == NoRefreshCookie
    ensures Truthy(cookie) <==> t.result.failure == InvalidRefresh
  {
    if !Truthy(cookie) then Step(s, Err(NoRefreshCookie))
    else Step(s, Err(InvalidRefresh))
  }

  /** The presented refresh token verifies to an existing account whose
      stored refresh token is exactly the presented one. */
  predicate RefreshMatches(s: seq<Account>, cookie: string, verify: string -> Option<nat>) {
    var id := verify(cookie);
    id.Some? && id.value < |s| && s[id.value].refreshToken == Some(cookie)
  }

  /** `refreshAccessToken` as evidently intended: the cookie is verified, the
      account looked up and its stored token compared with the cookie; on a
      match the account is rotated to the new pair. Every failure inside the
      `try` (bad signature, no account, a mismatch) surfaces as 401 and
      changes nothing. */
  function Refresh(s: seq<Account>, cookie: Option<string>, verify: string -> Option<nat>, tokens: TokenPair): (t: Step<TokenPair>)
    ensures !Truthy(cookie) ==> t == Step(s, Err(NoRefreshCookie))
    ensures t.result.Ok? <==> Truthy(cookie) && RefreshMatches(s, cookie.value, verify)
    ensures t.result.Ok? ==> t == IssueTokens(s, verify(cookie.value).value, tokens)
    ensures Truthy(cookie) && t.result.Err? ==> t == Step(s, Err(InvalidRefresh))
  {
    if !Truthy(cookie) then Step(s, Err(NoRefreshCookie))
    else
      var id := verify(cookie.value);
      if id.None? then Step(s, Err(InvalidRefresh))
      else if id.value >= |s| then Step(s, Err(InvalidRefresh))
      else if s[id.value].refreshToken != Some(cookie.value) then Step(s, Err(InvalidRefresh))
      else IssueTokens(s, id.value, tokens)
  }

  /** `forgotPassword`: an unknown e-mail gives 404, differing passwords 402;
      otherwise only the account's password changes. */
  function ResetPassword(s: seq<Account>, email: string, password: string, conformPassword: string): (t: Step<()>)
    ensures IndexOfEmail(s, email) < 0 ==> t == Step(s, Err(UnknownEmailAtReset))
    ensures IndexOfEmail(s, email) >= 0 && password != conformPassword ==> t == Step(s, Err(PasswordsDiffer))
    ensures t.result.Ok? <==> IndexOfEmail(s, email) >= 0 && password == conformPassword
    ensures t.result.Ok? ==> var i := IndexOfEmail(s, email);
      t.store == s[i := s[i].(password := password)]
  {
    var i := IndexOfEmail(s, email);
    if i < 0 then Step(s, Err(UnknownEmailAtReset))
    else if password != conformPassword then Step(s, Err(PasswordsDiffer))
    else Step(s[i := s[i].(password := conformPassword)], Ok(()))
  }

  /** `resendEmailVerification` as written: the new ticket is never stored
      (the returned object is bound to a local and dropped), and the mail
      goes through `sendEmail`, a name the file does not import. */
  function ResendAsWritten(s: seq<Account>, email: string): (t: Step<string>)
    ensures t.store == s && t.result.Err?
    ensures IndexOfEmail(s, email) < 0 <==> t.result.failure == NoTicket
    ensures IndexOfEmail(s, email) >= 0 <==> t.result.failure == SendEmailUnbound
  {
    if IndexOfEmail(s, email) < 0 then Step(s, Err(NoTicket))
    else Step(s, Err(SendEmailUnbound))
  }

  /** `resendEmailVerification` as evidently intended: the new ticket's digest
      and expiry replace the account's, and the link carries the unhashed
      token. */
  function Resend(s: seq<Account>, email: string, ticket: TemporaryToken, baseUrl: string): (t: Step<string>)
    ensures IndexOfEmail(s, email) < 0 <==> t == Step(s, Err(NoTicket))
    ensures IndexOfEmail(s, email) >= 0 <==> t.result.Ok?
    ensures t.result.Ok? ==> var i := IndexOfEmail(s, email);
      && t.store == s[i := s[i].(emailVerificationToken := Some(ticket.hashedToken),
                                 emailVerificationExpiry := Some(ticket.tokenExpiry))]
      && t.result.value == baseUrl + "/auth/verify-email?token=" + ticket.unHashedToken
  {
    var i := IndexOfEmail(s, email);
    if i < 0 then Step(s, Err(NoTicket))
    else
      Step(s[i := s[i].(emailVerificationToken := Some(ticket.hashedToken),
                        emailVerificationExpiry := Some(ticket.tokenExpiry))],
           Ok(baseUrl + "/auth/verify-email?token=" + ticket.unHashedToken))
  }

  /** The user collection, updated in place by the handlers. */
  class UserStore {
    var accounts: seq<Account>

    constructor ()
      ensures accounts == []
    {
      accounts := [];
    }

    method RegisterUser(email: string, fullname: string, password: string, username: string,
                        ticket: TemporaryToken, baseUrl: string) returns (r: Result<Registration>)
      modifies this
      ensures Step(accounts, r) == Register(old(accounts), email, fullname, password, username, ticket, baseUrl)
    {
      if IndexOfEmail(accounts, email) >= 0 {
        return Err(UserExists);
      }
      var user := Account(email, Strings.ToLower(username), fullname, password, false, None, None, None);
      accounts := accounts + [user];
      var id := |accounts| - 1;
      accounts := accounts[id := accounts[id].(emailVerificationToken := Some(ticket.hashedToken))];
      accounts := accounts[id := accounts[id].(emailVerificationExpiry := Some(ticket.tokenExpiry))];
      r := Ok(Registration(id, accounts[id].username, accounts[id].email,
                           baseUrl + "/users/verify-email?token=" + ticket.unHashedToken));
    }

    method VerifyEmailToken(token: Option<string>, now: int, sha256: string -> string) returns (r: Result<()>)
      modifies this
      ensures Step(accounts, r) == VerifyEmail(old(accounts), token, now, sha256)
    {
      if token.None? {
        return Err(MissingToken);
      }
      var hashedToken := sha256(token.value);
      var i := IndexOfTicket(accounts, hashedToken, now);
      if i < 0 {
        return Err(NoTicket);
      }
      accounts := accounts[i := accounts[i].(isEmailVerified := true)];
      accounts := accounts[i := accounts[i].(emailVerificationToken := None)];
      accounts := accounts[i := accounts[i].(emailVerificationExpiry := None)];
      r := Ok(());
    }

    method GenerateAccessAndRefreshTokens(id: nat, tokens: TokenPair) returns (r: TokenPair)
      requires id < |accounts|
      modifies this
      ensures Step(accounts, Ok(r)) == IssueTokens(old(accounts), id, tokens)
    {
      accounts := accounts[id := accounts[id].(refreshToken := Some(tokens.refreshToken))];
      r := tokens;
    }

    method LoginUser(email: string, password: string, passwordMatches: (string, string) -> bool,
                     tokens: TokenPair) returns (r: Result<TokenPair>)
      modifies this
      ensures Step(accounts, r) == Login(old(accounts), email, password, passwordMatches, tokens)
    {
      var i := IndexOfEmail(accounts, email);
      if i < 0 {
        return Err(UnknownEmailAtLogin);
      }
      if !accounts[i].isEmailVerified {
        return Err(NotVerified);
      }
      if !passwordMatches(accounts[i].password, password) {
        return Err(WrongPassword);
      }
      var issued := GenerateAccessAndRefreshTokens(i, tokens);
      r := Ok(issued);
    }

    method LogoutUser(id: nat) returns (r: Result<()>)
      modifies this
      ensures Step(accounts, r) == Logout(old(accounts), id)
    {
      if id < |accounts| {
        accounts := accounts[id := accounts[id].(refreshToken := Some(""))];
      }
      r := Ok(());
    }

    method RefreshAccessTokenAsWritten(cookie: Option<string>) returns (r: Result<TokenPair>)
      ensures Step(accounts, r) == RefreshAsWritten(accounts, cookie)
    {
      if !Truthy(cookie) {
        return Err(NoRefreshCookie);
      }
      r := Err(InvalidRefresh);
    }

    method RefreshAccessToken(cookie: Option<string>, verify: string -> Option<nat>, tokens: TokenPair)
      returns (r: Result<TokenPair>)
      modifies this
      ensures Step(accounts, r) == Refresh(old(accounts), cookie, verify, tokens)
    {
      if !Truthy(cookie) {
        return Err(NoRefreshCookie);
      }
      var decoded := verify(cookie.value);
      if decoded.None? || decoded.value >= |accounts| {
        return Err(InvalidRefresh);
      }
      if accounts[decoded.value].refreshToken != Some(cookie.value) {
        return Err(InvalidRefresh);
      }
      var issued := GenerateAccessAndRefreshTokens(decoded.value, tokens);
      r := Ok(issued);
    }

    method ForgotPassword(email: string, password: string, conformPassword: string) returns (r: Result<()>)
      modifies this
      ensures Step(accounts, r) == ResetPassword(old(accounts), email, password, conformPassword)
    {
      var i := IndexOfEmail(accounts, email);
      if i < 0 {
        return Err(UnknownEmailAtReset);
      }
      if password != conformPassword {
        return Err(PasswordsDiffer);
      }
      accounts := accounts[i := accounts[i].(password := conformPassword)];
      r := Ok(());
    }

    method ResendEmailVerificationAsWritten(email: string) returns (r: Result<string>)
      ensures Step(accounts, r) == ResendAsWritten(accounts, email)
    {
      var i := IndexOfEmail(accounts, email);
      if i < 0 {
        return Err(NoTicket);
      }
      r := Err(SendEmailUnbound);
    }

    method ResendEmailVerification(email: string, ticket: TemporaryToken, baseUrl: string) returns (r: Result<string>)
      modifies this
      ensures Step(accounts, r) == Resend(old(accounts), email, ticket, baseUrl)
    {
      var i := IndexOfEmail(accounts, email);
      if i < 0 {
        return Err(NoTicket);
      }
      accounts := accounts[i := accounts[i].(emailVerificationToken := Some(ticket.hashedToken))];
      accounts := accounts[i := accounts[i].(emailVerificationExpiry := Some(ticket.tokenExpiry))];
      r := Ok(baseUrl + "/auth/verify-email?token=" + ticket.unHashedToken);
    }
  }

  /** At most one account holds a live ticket with digest `hashed`. */
  predicate TicketUnique(s: seq<Account>, hashed: string, now: int) {
    forall i, j :: 0 <= i < j < |s| && Redeemable(s[i], hashed, now) ==> !Redeemable(s[j], hashed, now)
  }

  /** Registration followed by verification with the mailed token: when the
      ticket's digest is the SHA-256 of the token, it has not expired, and no
      other account holds a live ticket with that digest, the new account is
      the one that becomes verified. */
  lemma RegisterThenVerify(s: seq<Account>, email: string, fullname: string, password: string, username: string,
                           ticket: TemporaryToken, baseUrl: string, now: int, sha256: string -> string)
    requires IndexOfEmail(s, email) < 0
    requires sha256(ticket.unHashedToken) == ticket.hashedToken && now < ticket.tokenExpiry
    requires forall j :: 0 <= j < |s| ==> !Redeemable(s[j], ticket.hashedToken, now)
    ensures var reg := Register(s, email, fullname, password, username, ticket, baseUrl);
      var v := VerifyEmail(reg.store, Some(ticket.unHashedToken), now, sha256);
      && v.result.Ok?
      && v.store == s + [Verified(NewAccount(email, fullname, password, username, ticket))]
  {
    var reg := Register(s, email, fullname, password, username, ticket, baseUrl);
    var a := NewAccount(email, fullname, password, username, ticket);
    assert reg.store == s + [a];
    var i := IndexOfTicket(reg.store, ticket.hashedToken, now);
    assert Redeemable(reg.store[|s|], ticket.hashedToken, now);
    assert i == |s|;
  }

  /** A ticket cannot be redeemed twice: once an account's ticket is
      redeemed, presenting the same token again fails with 404, provided no
      other account held a live ticket with the same digest. */
  lemma VerifyTwiceFails(s: seq<Account>, token: string, now: int, sha256: string -> string)
    requires TicketUnique(s, sha256(token), now)
    requires VerifyEmail(s, Some(token), now, sha256).result.Ok?
    ensures var once := VerifyEmail(s, Some(token), now, sha256);
      VerifyEmail(once.store, Some(token), now, sha256) == Step(once.store, Err(NoTicket))
  {
    var h := sha256(token);
    var i := IndexOfTicket(s, h, now);
    var once := VerifyEmail(s, Some(token), now, sha256);
    assert once.store == s[i := Verified(s[i])];
    forall j | 0 <= j < |once.store| ensures !Redeemable(once.store[j], h, now) {
      if j < i {
        assert once.store[j] == s[j];
      } else if i < j {
        assert once.store[j] == s[j];
      }
    }
  }

  /** A freshly registered account cannot log in before it is verified, even
      with the right password. */
  lemma RegisterThenLoginRejected(s: seq<Account>, email: string, fullname: string, password: string, username: string,
                                  ticket: TemporaryToken, baseUrl: string,
                                  passwordMatches: (string, string) -> bool, tokens: TokenPair)
    requires IndexOfEmail(s, email) < 0
    ensures var reg := Register(s, email, fullname, password, username, ticket, baseUrl);
      Login(reg.store, email, password, passwordMatches, tokens) == Step(reg.store, Err(NotVerified))
  {
    var reg := Register(s, email, fullname, password, username, ticket, baseUrl);
    assert reg.store[|s|].email == email;
    assert IndexOfEmail(reg.store, email) == |s| by {
      forall j | 0 <= j < |s| ensures reg.store[j].email != email {
        assert reg.store[j] == s[j];
      }
    }
  }

  /** The refresh token handed out at login is accepted by the (corrected)
      refresh handler, which rotates the account to the next pair. */
  lemma LoginThenRefreshRotates(s: seq<Account>, email: string, password: string,
                                passwordMatches: (string, string) -> bool, tokens: TokenPair,
                                verify: string -> Option<nat>, next: TokenPair)
    requires Login(s, email, password, passwordMatches, tokens).result.Ok?
    requires tokens.refreshToken != "" && verify(tokens.refreshToken) == Some(IndexOfEmail(s, email))
    ensures var li := Login(s, email, password, passwordMatches, tokens);
      var rf := Refresh(li.store, Some(tokens.refreshToken), verify, next);
      && rf.result == Ok(next)
      && rf.store[IndexOfEmail(s, email)].refreshToken == Some(next.refreshToken)
  {
  }

  /** After logout no non-empty refresh token is accepted for the account:
      the stored value is `""` and a cookie must be non-empty. */
  lemma LogoutThenRefreshFails(s: seq<Account>, id: nat, cookie: string,
                               verify: string -> Option<nat>, tokens: TokenPair)
    requires id < |s| && cookie != "" && verify(cookie) == Some(id)
    ensures var lo := Logout(s, id);
      Refresh(lo.store, Some(cookie), verify, tokens) == Step(lo.store, Err(InvalidRefresh))
  {
  }

  /** The defect of `refreshAccessToken` as written: the same request that the
      evidently intended handler accepts and rotates is answered with 401. */
  lemma RefreshAsWrittenRejectsValidToken(s: seq<Account>, cookie: string, verify: string -> Option<nat>, tokens: TokenPair)
    requires cookie != "" && RefreshMatches(s, cookie, verify)
    ensures Refresh(s, Some(cookie), verify, tokens).result == Ok(tokens)
    ensures RefreshAsWritten(s, Some(cookie)) == Step(s, Err(InvalidRefresh))
  {
  }

  /** Re-sending the link and then following it verifies the account (with
      the corrected handler), when the new digest is unique and live. */
  lemma ResendThenVerify(s: seq<Account>, email: string, ticket: TemporaryToken, baseUrl: string,
                         now: int, sha256: string -> string)
    requires IndexOfEmail(s, email) >= 0
    requires sha256(ticket.unHashedToken) == ticket.hashedToken && now < ticket.tokenExpiry
    requires forall j :: 0 <= j < |s| ==> !Redeemable(s[j], ticket.hashedToken, now)
    ensures var i := IndexOfEmail(s, email);
      var rs := Resend(s, email, ticket, baseUrl);
      var v := VerifyEmail(rs.store, Some(ticket.unHashedToken), now, sha256);
      v.result.Ok? && v.store[i].isEmailVerified
  {
    var i := IndexOfEmail(s, email);
    var rs := Resend(s, email, ticket, baseUrl);
    assert Redeemable(rs.store[i], ticket.hashedToken, now);
    var k := IndexOfTicket(rs.store, ticket.hashedToken, now);
    assert k == i by {
      forall j | 0 <= j < |rs.store| && j != i ensures !Redeemable(rs.store[j], ticket.hashedToken, now) {
        assert rs.store[j] == s[j];
      }
    }
  }

  /** The defect of `resendEmailVerification` as written: the mailed token can
      never be redeemed, because its digest is never stored. */
  lemma ResendAsWrittenTicketUnusable(s: seq<Account>, email: string, ticket: TemporaryToken,
                                      now: int, sha256: string -> string)
    requires IndexOfEmail(s, email) >= 0
    requires sha256(ticket.unHashedToken) == ticket.hashedToken && now < ticket.tokenExpiry
    requires forall j :: 0 <= j < |s| ==> !Redeemable(s[j], ticket.hashedToken, now)
    ensures ResendAsWritten(s, email).result.Err?
    ensures var rs := ResendAsWritten(s, email);
      VerifyEmail(rs.store, Some(ticket.unHashedToken), now, sha256).result.Err?
  {
  }

  /** Every handler other than registration keeps the set of e-mail
      addresses, so unique e-mails stay unique. */
  lemma HandlersKeepEmails(s: seq<Account>, id: nat, email: string, password: string, conformPassword: string,
                           ticket: TemporaryToken, baseUrl: string)
    requires UniqueEmails(s)
    ensures UniqueEmails(Logout(s, id).store)
    ensures UniqueEmails(ResetPassword(s, email, password, conformPassword).store)
    ensures UniqueEmails(Resend(s, email, ticket, baseUrl).store)
  {
  }
}

/** The registration handler of the top-level server tree. It checks the
    e-mail for uniqueness and stores the account with a lowercased user
    name, then calls `select` on the created document, which documents do
    not have: the account is stored but the request fails. */
module SrcUserController {
  import opened Api
  import Strings
  import UserController

  const SelectNotAFunction := RuntimeError("TypeError", "user.select is not a function")

  /** The account this handler creates: no verification ticket, no refresh
      token, not verified. */
  function CreatedAccount(email: string, fullname: string, password: string, username: string): UserController.Account {
    UserController.Account(email, Strings.ToLower(username), fullname, password, false, None, None, None)
  }

  /** `registerUser`: a duplicate e-mail gives 409 and creates nothing;
      otherwise the account is appended with its user name lowercased and the
      other fields as given, and the response fails with a TypeError. */
  function Register(s: seq<UserController.Account>, email: string, fullname: string, password: string,
                    username: string): (t: UserController.Step<()>)
    ensures t.result.Err?
    ensures (exists i :: 0 <= i < |s| && s[i].email == email) <==> t == UserController.Step(s, Err(UserController.UserExists))
    ensures (forall i :: 0 <= i < |s| ==> s[i].email != email) <==>
      t == UserController.Step(s + [CreatedAccount(email, fullname, password, username)], Err(SelectNotAFunction))
    ensures UserController.UniqueEmails(s) ==> UserController.UniqueEmails(t.store)
  {
    if UserController.IndexOfEmail(s, email) >= 0 then UserController.Step(s, Err(UserController.UserExists))
    else UserController.Step(s + [CreatedAccount(email, fullname, password, username)], Err(SelectNotAFunction))
  }

  /** The stored user name is the lowercased one; e-mail, full name and
      password are kept as given, and no account's user name is consulted. */
  lemma RegisterStoresLowercasedUsername(s: seq<UserController.Account>, email: string, fullname: string,
                                         password: string, username: string)
    requires UserController.IndexOfEmail(s, email) < 0
    ensures var a := Register(s, email, fullname, password, username).store[|s|];
      && a.username == Strings.ToLower(username)
      && Strings.ToLower(a.username) == a.username
      && a.email == email && a.fullname == fullname && a.password == password
  {
    Strings.ToLowerIdempotent(username);
  }

  /** Both registration handlers store the same identity fields; the backend
      one adds a verification ticket. */
  lemma SameIdentityAsBackend(s: seq<UserController.Account>, email: string, fullname: string, password: string,
                              username: string, ticket: UserController.TemporaryToken, baseUrl: string)
    requires UserController.IndexOfEmail(s, email) < 0
    ensures var a := Register(s, email, fullname, password, username).store;
      var b := UserController.Register(s, email, fullname, password, username, ticket, baseUrl).store;
      && |a| == |b| == |s| + 1 && a[..|s|] == b[..|s|]
      && a[|s|] == b[|s|].(emailVerificationToken := None, emailVerificationExpiry := None)
  {
  }

  /** `registerUser` acting on the user collection. */
  method RegisterUser(store: UserController.UserStore, email: string, fullname: string, password: string,
                      username: string) returns (r: Result<()>)
    modifies store
    ensures UserController.Step(store.accounts, r) == Register(old(store.accounts), email, fullname, password, username)
  {
    var existedUser := UserController.IndexOfEmail(store.accounts, email);
    if existedUser >= 0 {
      return Err(UserController.UserExists);
    }
    var user := CreatedAccount(email, fullname, password, username);
    store.accounts := store.accounts + [user];
    r := Err(SelectNotAFunction);
  }
}

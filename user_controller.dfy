/** UsersController: registration, login and the caller's profile. */
module UsersController {
  import opened Wrappers
  import opened Text
  import opened Model
  import opened Requests
  import opened Data

  /** The body of POST register. */
  datatype RegisterRequest = RegisterRequest(username: string, email: string, password: string, role: string)

  /** `[^@\s]+` (or its empty form `[^@\s]*`): no '@' and no white space. */
  predicate NoAtOrSpace(s: string)
  {
    forall i :: 0 <= i < |s| ==> s[i] != '@' && !IsWhiteSpace(s[i])
  }

  /** `[^@\s]+\.[^@\s]+`: no '@' or white space, and a '.' somewhere with at
      least one character before and after it. */
  predicate DottedDomain(s: string)
  {
    NoAtOrSpace(s) && exists j :: 0 < j < |s| - 1 && s[j] == '.'
  }

  /** The whole string is `[^@\s]+@[^@\s]+\.[^@\s]+`. */
  predicate EmailForm(s: string)
  {
    exists k :: 0 < k < |s| && s[k] == '@' && NoAtOrSpace(s[..k]) && DottedDomain(s[k + 1..])
  }

  /** `^[^@\s]+@[^@\s]+\.[^@\s]+$` with .NET's default options: `$` matches at
      the very end and also just before a final "\n". */
  predicate EmailMatches(s: string)
  {
    EmailForm(s) || (0 < |s| && s[|s| - 1] == '\n' && EmailForm(s[..|s| - 1]))
  }

  /** The pattern accepts ordinary addresses and refuses one without a dotted
      domain, one with a space and one with two '@'. */
  lemma EmailMatchesExamples()
    ensures EmailMatches("ann@shop.in")
    ensures !EmailMatches("ann@shop")
    ensures !EmailMatches("ann lee@shop.in")
    ensures !EmailMatches("ann@x@shop.in")
  {
    var s := "ann@shop.in";
    assert s[..3] == "ann" && s[4..] == "shop.in" && s[4..][4] == '.';
    var t := "ann@shop";
    forall k | 0 < k < |t| && t[k] == '@'
      ensures !DottedDomain(t[k + 1..])
    {
      assert k == 3 && t[k + 1..] == "shop";
    }
    var u := "ann lee@shop.in";
    forall k | 0 < k < |u| && u[k] == '@'
      ensures !NoAtOrSpace(u[..k])
    {
      assert u[..k][3] == ' ';
    }
    var v := "ann@x@shop.in";
    forall k | 0 < k < |v| && v[k] == '@'
      ensures !(NoAtOrSpace(v[..k]) && NoAtOrSpace(v[k + 1..]))
    {
      if k == 3 {
        assert v[k + 1..][1] == '@';
      } else {
        assert v[..k][3] == '@';
      }
    }
  }

  /** ... and also an address followed by a line feed, which is stored with
      the line feed: `$` is not the end of the string. */
  lemma TrailingNewlineAccepted(s: string)
    requires EmailForm(s)
    ensures EmailMatches(s + "\n")
    ensures !EmailForm(s + "\n")
  {
    var t := s + "\n";
    assert t[..|t| - 1] == s;
    forall k | 0 < k < |t| && t[k] == '@' && NoAtOrSpace(t[..k])
      ensures !DottedDomain(t[k + 1..])
    {
      assert t[k + 1..][|t[k + 1..]| - 1] == '\n';
    }
  }

  /** The pattern is stricter than the [EmailAddress] annotation, so among
      the two the pattern decides. */
  lemma EmailMatchesImpliesAttribute(s: string)
    requires EmailMatches(s)
    ensures EmailAddressAttribute(s)
  {
    if EmailForm(s) {
      var k :| 0 < k < |s| && s[k] == '@' && NoAtOrSpace(s[..k]) && DottedDomain(s[k + 1..]);
      OnlyAt(s, k);
    } else {
      var t := s[..|s| - 1];
      var k :| 0 < k < |t| && t[k] == '@' && NoAtOrSpace(t[..k]) && DottedDomain(t[k + 1..]);
      OnlyAt(t, k);
      forall j | 0 <= j < |s| && j != k
        ensures s[j] != '@'
      {
        if j < |t| {
          assert s[j] == t[j];
        }
      }
      assert 0 < k < |s| - 1 && s[k] == '@';
    }
  }

  /** In an address of the pattern's form, the '@' is the only one and is
      not the last character. */
  lemma OnlyAt(t: string, k: nat)
    requires 0 < k < |t| && t[k] == '@' && NoAtOrSpace(t[..k]) && DottedDomain(t[k + 1..])
    ensures k < |t| - 1
    ensures forall j :: 0 <= j < |t| && j != k ==> t[j] != '@'
  {
    forall j | 0 <= j < |t| && j != k
      ensures t[j] != '@'
    {
      if j < k {
        assert t[..k][j] == t[j];
      } else {
        assert t[k + 1..][j - k - 1] == t[j];
      }
    }
  }

  /** `Role.ToLower()` is "customer" or "merchant". */
  predicate RoleAccepted(role: string)
  {
    ToLower(role) == "customer" || ToLower(role) == "merchant"
  }

  /** The role test ignores case in ASCII letters only. */
  lemma RoleAcceptedExamples()
    ensures RoleAccepted("Customer") && RoleAccepted("MERCHANT") && RoleAccepted("merchant")
    ensures !RoleAccepted("admin") && !RoleAccepted("customers")
  {
    assert ToLower("Customer") == "customer";
    assert ToLower("MERCHANT") == "merchant";
    assert ToLower("merchant") == "merchant";
    assert ToLower("admin") == "admin";
  }

  /** UserExistsAsync. */
  predicate UsernameTaken(users: map<int, User>, username: string)
  {
    exists id :: id in users && users[id].username == username
  }

  /** Why POST register answers 400 without writing anything: no body, a body
      the annotations refuse, a taken username, an address the pattern
      refuses, or an unknown role. */
  predicate RegisterRefused(users: map<int, User>, body: Option<RegisterRequest>)
  {
    || body.None?
    || !ValidRegisterRequest(body.value.username, body.value.email, body.value.password, body.value.role)
    || UsernameTaken(users, body.value.username)
    || !EmailMatches(body.value.email)
    || !RoleAccepted(body.value.role)
  }

  /** POST register. `passwordHash` is BCrypt's hash of the password (its salt
      is random); `emailDelivered` is the outcome of the welcome email, which
      is sent after the user is saved. Answers with the new user's id. An
      address longer than the Email column passes every check, but the insert
      fails outside any try block (500) and stores nothing. */
  method Register(db: Store, body: Option<RegisterRequest>, passwordHash: string, emailDelivered: bool)
    returns (r: Response<int>)
    requires db.Valid()
    modifies db`users, db`nextUserId
    ensures db.Valid()
    ensures RegisterRefused(old(db.users), body) ==> r == BadRequest && unchanged(db)
    ensures !RegisterRefused(old(db.users), body) && Utf16Length(body.value.email) > EmailColumnLength ==>
      r == ServerError && unchanged(db)
    ensures !RegisterRefused(old(db.users), body) && Utf16Length(body.value.email) <= EmailColumnLength ==>
      var id := old(db.nextUserId);
      var req := body.value;
      && id !in old(db.users)
      && db.users == old(db.users)[id := User(req.username, req.email, passwordHash, req.role, 0)]
      && db.nextUserId == id + 1
      // a failed email still leaves the user registered
      && r == (if emailDelivered then Ok(id) else ServerError)
    // the new account is the only one with its username, so Login finds it
    ensures r.Ok? ==> forall id :: id in db.users && db.users[id].username == body.value.username ==> id == r.value
  {
    if body.None? {
      return BadRequest;
    }
    var req := body.value;
    if !ValidRegisterRequest(req.username, req.email, req.password, req.role) {
      return BadRequest;
    }
    if exists id :: id in db.users && db.users[id].username == req.username {
      return BadRequest;
    }
    if !EmailMatches(req.email) {
      return BadRequest;
    }
    if !(ToLower(req.role) == "customer" || ToLower(req.role) == "merchant") {
      return BadRequest;
    }
    if Utf16Length(req.email) > EmailColumnLength {
      return ServerError;  // AddUserAsync: the value does not fit the column
    }
    var user := User(req.username, req.email, passwordHash, req.role, 0);
    var id := db.nextUserId;
    AddUser(db.users, id, user);
    UsersKept(db.carts, db.users, db.users[id := user]);
    db.users := db.users[id := user];  // AddUserAsync saves
    db.nextUserId := id + 1;
    if !emailDelivered {
      return ServerError;
    }
    r := Ok(id);
  }

  /** What the signed token carries: the "UserId" and role claims. Its
      signature and expiry are not modelled. */
  datatype Token = Token(userId: int, role: string)

  /** POST login. `verify` stands for BCrypt.Verify(password, hash). */
  method Login(db: Store, username: string, password: string, verify: (string, string) -> bool)
    returns (r: Response<Token>)
    requires db.Valid()
    ensures !ValidLoginRequest(username, password) ==> r == BadRequest
    ensures ValidLoginRequest(username, password) ==>
      (r.Ok? <==> exists id :: (id in db.users && db.users[id].username == username
        && verify(password, db.users[id].passwordHash)))
    ensures r.Ok? ==>
      var id := r.value.userId;
      && id in db.users && db.users[id].username == username
      && r.value.role == db.users[id].role
      && verify(password, db.users[id].passwordHash)
    ensures r.Ok? || r.BadRequest? || r.Unauthorized?
  {
    if !ValidLoginRequest(username, password) {
      return BadRequest;
    }
    if !exists id :: id in db.users && db.users[id].username == username {
      return Unauthorized;
    }
    var id :| id in db.users && db.users[id].username == username;
    var user := db.users[id];
    if !verify(password, user.passwordHash) {
      // usernames are unique, so `id` is the only candidate
      assert forall other :: other in db.users && db.users[other].username == username ==> other == id;
      return Unauthorized;
    }
    r := Ok(Token(id, user.role));
  }

  /** GET profile. The claim is read with int.Parse outside any try block, so
      a missing or unparsable claim raises an unhandled exception (500). */
  datatype Profile = Profile(userId: int, username: string, email: string, walletBalance: int, role: string)

  method GetProfile(db: Store, claim: Claim) returns (r: Response<Profile>)
    requires db.Valid()
    ensures !claim.Numeric? ==> r == ServerError
    ensures claim.Numeric? ==> (r.NotFound? <==> claim.id !in db.users)
    ensures claim.Numeric? && claim.id in db.users ==>
      var u := db.users[claim.id];
      r == Ok(Profile(claim.id, u.username, u.email, u.walletBalance, u.role))
    ensures r.Ok? ==> r.value.walletBalance >= 0
  {
    if !claim.Numeric? {
      return ServerError;
    }
    if claim.id !in db.users {
      return NotFound;
    }
    var u := db.users[claim.id];
    r := Ok(Profile(claim.id, u.username, u.email, u.walletBalance, u.role));
  }
}

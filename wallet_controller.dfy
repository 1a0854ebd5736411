/** WalletController: the caller's wallet. The claim is looked up as
    "userId" with FindFirstValue, whose match on the claim type ignores case,
    so it finds the "UserId" claim the token carries. */
module WalletController {
  import opened Wrappers
  import opened Model
  import opened Requests
  import opened Data

  /** POST top-up/{amount}: `amount` is a whole number of currency units.
      Answers with the new balance, in minor units. */
  method TopUpWallet(db: Store, claim: Claim, amount: int) returns (r: Response<int>)
    requires db.Valid()
    modifies db`users
    ensures db.Valid()
    ensures claim.Absent? ==> r == Unauthorized && unchanged(db)
    ensures claim.NonNumeric? ==> r == BadRequest && unchanged(db)
    ensures claim.Numeric? && amount <= 0 ==> r == BadRequest && unchanged(db)
    ensures claim.Numeric? && 0 < amount && claim.id !in old(db.users) ==> r == NotFound && unchanged(db)
    ensures claim.Numeric? && 0 < amount && claim.id in old(db.users) ==>
      var u := old(db.users)[claim.id];
      && r == Ok(u.walletBalance + amount * CentsPerUnit)
      && db.users == old(db.users)[claim.id := u.(walletBalance := u.walletBalance + amount * CentsPerUnit)]
    // the only change any call makes is a rise of the caller's balance
    ensures forall id :: id in old(db.users) ==>
      id in db.users && old(db.users)[id].walletBalance <= db.users[id].walletBalance
    ensures r.Ok? ==> claim.Numeric? && claim.id in db.users && r.value == db.users[claim.id].walletBalance
  {
    if claim.Absent? {
      return Unauthorized;
    }
    if claim.NonNumeric? {
      return BadRequest;
    }
    var userId := claim.id;
    if amount <= 0 {
      return BadRequest;
    }
    if userId !in db.users {
      return NotFound;
    }
    var user := db.users[userId];
    var credited := user.(walletBalance := user.walletBalance + amount * CentsPerUnit);
    PutUser(db.users, userId, credited);
    SameKeys(db.users, db.users[userId := credited], db.nextUserId);
    UsersKept(db.carts, db.users, db.users[userId := credited]);
    db.users := db.users[userId := credited];  // UpdateUserAsync saves
    r := Ok(credited.walletBalance);
  }

  /** GET balance. */
  method GetWalletBalance(db: Store, claim: Claim) returns (r: Response<int>)
    requires db.Valid()
    ensures r.Ok? ==> r.value >= 0
    ensures claim.Absent? ==> r == Unauthorized
    ensures claim.NonNumeric? ==> r == BadRequest
    ensures claim.Numeric? ==>
      if claim.id in db.users then r == Ok(db.users[claim.id].walletBalance) else r == NotFound
  {
    if claim.Absent? {
      return Unauthorized;
    }
    if claim.NonNumeric? {
      return BadRequest;
    }
    if claim.id !in db.users {
      return NotFound;
    }
    r := Ok(db.users[claim.id].walletBalance);
  }
}

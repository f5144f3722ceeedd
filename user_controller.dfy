/**
 * The user self-service controllers: read the profile, edit it, change the
 * password, reset it with the security answer, and delete the account.
 */
module UserController {
  import opened Wrappers
  import opened Model
  import opened Db

  /** A view completed with a password: the user it was taken from, given that user's password. */
  function WithPassword(v: UserView, password: string): User
  {
    User(v.username, v.email, password, v.address, v.phone, v.answer, v.isVerified, v.verifyToken, v.profile)
  }

  /** The user as sent to a client, `user.password = undefined`: only the password
      is lost, so the view together with the stored password gives the user back. */
  function HidePassword(u: User): (v: UserView)
    ensures WithPassword(v, u.password) == u
  {
    UserView(u.username, u.email, u.address, u.phone, u.answer, u.isVerified, u.verifyToken, u.profile)
  }

  /** The view hides the password and nothing else: two users have the same view
      exactly when they differ at most in their password. */
  lemma HidePasswordHidesOnlyPassword(u: User, w: User)
    ensures HidePassword(u) == HidePassword(w) <==> u.(password := w.password) == w
  {
  }

  /** The profile edit of update-user: only username, address and phone may change,
      and each only to a truthy supplied value. */
  function EditProfile(u: User, username: Option<string>, address: Option<string>, phone: Option<string>): User
  {
    u.(username := AssignIfTruthy(username, u.username),
       address := AssignIfTruthy(address, u.address),
       phone := AssignIfTruthy(phone, u.phone))
  }

  /** With no truthy field the profile edit changes nothing; repeating an edit is
      doing it once; and an empty string never overwrites a stored field. */
  lemma EditProfileLaws(u: User, username: Option<string>, address: Option<string>, phone: Option<string>)
    ensures !TruthyStr(username) && !TruthyStr(address) && !TruthyStr(phone) ==> EditProfile(u, username, address, phone) == u
    ensures EditProfile(EditProfile(u, username, address, phone), username, address, phone) == EditProfile(u, username, address, phone)
    ensures EditProfile(u, Some(""), Some(""), Some("")) == u
  {
  }

  /** `findOne({ email, answer })` may return any of these users. */
  function UsersWith(users: map<Id, User>, email: string, answer: string): set<Id>
  {
    set id | id in users && users[id].email == email && users[id].answer == answer
  }

  /** Changing a user's password leaves every email-and-answer lookup as it was, so
      a reset or an update of the password never changes who a reset can find. */
  lemma UsersWithIgnoresPassword(users: map<Id, User>, id: Id, hashed: string, email: string, answer: string)
    requires id in users
    ensures UsersWith(users[id := users[id].(password := hashed)], email, answer) == UsersWith(users, email, answer)
  {
  }

  /** getUserController: the user named by the request's `id`, password hidden. */
  method GetUser(db: Store, userId: Option<Id>) returns (r: Response)
    ensures !Has(db.users, userId) ==> r == Fail(404, "User not found")
    ensures Has(db.users, userId) ==>
      r == Ok(200, "User found successfully", UserBody(userId.value, HidePassword(db.users[userId.value])))
  {
    if !Has(db.users, userId) {
      return Fail(404, "User not found");
    }
    var user := db.users[userId.value];
    r := Ok(200, "User found successfully", UserBody(userId.value, HidePassword(user)));
  }

  /** updateUserController: assigns the truthy ones of username, address and phone
      on the fetched user, then saves it. */
  method UpdateUser(db: Store, userId: Option<Id>, username: Option<string>, address: Option<string>, phone: Option<string>)
    returns (r: Response)
    requires db.Valid()
    modifies db
    ensures db.Valid()
    ensures !Has(old(db.users), userId) ==> r == Fail(404, "User not found") && unchanged(db)
    ensures Has(old(db.users), userId) ==>
      && db.State() == old(db.State()).(users := old(db.users)[userId.value :=
           EditProfile(old(db.users)[userId.value], username, address, phone)])
      && db.nextId == old(db.nextId)
      && r == Ok(200, "User Updated Successfully", NoBody)
  {
    if !Has(db.users, userId) {
      return Fail(404, "User not found");
    }
    var id := userId.value;
    var user := db.users[id];
    if TruthyStr(username) { user := user.(username := username.value); }
    if TruthyStr(address) { user := user.(address := address.value); }
    if TruthyStr(phone) { user := user.(phone := phone.value); }
    db.users := db.users[id := user];
    r := Ok(200, "User Updated Successfully", NoBody);
  }

  /** updatePasswordController: unknown user, then missing passwords, then a wrong
      old password; otherwise the new password's hash replaces the stored one. */
  method UpdatePassword(db: Store, c: Crypto, userId: Option<Id>, oldPassword: Option<string>, newPassword: Option<string>)
    returns (r: Response)
    requires db.Valid()
    modifies db
    ensures db.Valid()
    ensures !Has(old(db.users), userId) ==> r == Fail(404, "User not found") && unchanged(db)
    ensures Has(old(db.users), userId) && !(TruthyStr(oldPassword) && TruthyStr(newPassword)) ==>
      r == Fail(400, "Please provide both old and new passwords") && unchanged(db)
    ensures (Has(old(db.users), userId) && TruthyStr(oldPassword) && TruthyStr(newPassword)
             && !c.compare(oldPassword.value, old(db.users)[userId.value].password)) ==>
      r == Fail(402, "Incorrect old password") && unchanged(db)
    ensures (Has(old(db.users), userId) && TruthyStr(oldPassword) && TruthyStr(newPassword)
             && c.compare(oldPassword.value, old(db.users)[userId.value].password)) ==>
      && db.State() == old(db.State()).(users := old(db.users)[userId.value :=
           old(db.users)[userId.value].(password := c.hash(newPassword.value))])
      && db.nextId == old(db.nextId)
      && r == Ok(200, "Password updated successfully", NoBody)
    ensures Sound(c) && r == Ok(200, "Password updated successfully", NoBody) ==>
      c.compare(newPassword.value, db.users[userId.value].password)
  {
    if !Has(db.users, userId) {
      return Fail(404, "User not found");
    }
    if !TruthyStr(oldPassword) || !TruthyStr(newPassword) {
      return Fail(400, "Please provide both old and new passwords");
    }
    var id := userId.value;
    var user := db.users[id];
    var matched := c.compare(oldPassword.value, user.password);
    if !matched {
      return Fail(402, "Incorrect old password");
    }
    var hashed := c.hash(newPassword.value);
    user := user.(password := hashed);
    db.users := db.users[id := user];
    r := Ok(200, "Password updated successfully", NoBody);
  }

  /** resetPasswordController: a user matching both the email and the security
      answer gets the new password's hash; every other field stays. */
  method ResetPassword(db: Store, c: Crypto, email: Option<string>, newPassword: Option<string>, answer: Option<string>)
    returns (r: Response)
    requires db.Valid()
    modifies db
    ensures db.Valid()
    ensures !(TruthyStr(email) && TruthyStr(newPassword) && TruthyStr(answer)) ==>
      r == Fail(400, "Please provide all fields") && unchanged(db)
    ensures (TruthyStr(email) && TruthyStr(newPassword) && TruthyStr(answer)
             && UsersWith(old(db.users), email.value, answer.value) == {}) ==>
      r == Fail(400, "User Not Found or Invalid answer") && unchanged(db)
    ensures (TruthyStr(email) && TruthyStr(newPassword) && TruthyStr(answer)
             && UsersWith(old(db.users), email.value, answer.value) != {}) ==>
      && r == Ok(200, "Password Reset Successfully", NoBody)
      && db.nextId == old(db.nextId)
      && exists id :: id in UsersWith(old(db.users), email.value, answer.value) &&
           db.State() == old(db.State()).(users := old(db.users)[id := old(db.users)[id].(password := c.hash(newPassword.value))])
  {
    if !TruthyStr(email) || !TruthyStr(newPassword) || !TruthyStr(answer) {
      return Fail(400, "Please provide all fields");
    }
    var matches := UsersWith(db.users, email.value, answer.value);
    if matches == {} {
      return Fail(400, "User Not Found or Invalid answer");
    }
    var id :| id in matches;
    var user := db.users[id];
    var hashed := c.hash(newPassword.value);
    user := user.(password := hashed);
    db.users := db.users[id := user];
    r := Ok(200, "Password Reset Successfully", NoBody);
  }

  /** deleteUserController: looks up the request body's `_id` (not its `id`). */
  method DeleteUser(db: Store, docId: Option<Id>) returns (r: Response)
    requires db.Valid()
    modifies db
    ensures db.Valid()
    ensures !Has(old(db.users), docId) ==> r == Fail(404, "User not found") && unchanged(db)
    ensures Has(old(db.users), docId) ==>
      && db.State() == old(db.State()).(users := old(db.users) - {docId.value})
      && db.nextId == old(db.nextId)
      && r == Ok(200, "User Deleted Successfully", NoBody)
  {
    if !Has(db.users, docId) {
      return Fail(404, "User not found");
    }
    db.users := db.users - {docId.value};
    r := Ok(200, "User Deleted Successfully", NoBody);
  }
}

/** The admin controllers: register and log in. */
module AdminController {
  import opened Wrappers
  import opened Model
  import opened Db

  /** `findOne({ email })` may return any of these admins. */
  function AdminsWith(admins: map<Id, Admin>, email: string): set<Id>
  {
    set id | id in admins && admins[id].email == email
  }

  /** Storing an admin under an unused id adds exactly that id to the admins with
      its email, and leaves the admins with any other email as they were. */
  lemma AdminsWithAfterInsert(admins: map<Id, Admin>, id: Id, a: Admin, email: string)
    requires id !in admins
    ensures AdminsWith(admins[id := a], a.email) == AdminsWith(admins, a.email) + {id}
    ensures email != a.email ==> AdminsWith(admins[id := a], email) == AdminsWith(admins, email)
  {
  }

  /** adminController: stores the hash of the password, never the password, and
      does not look for an admin with the same email first. */
  method RegisterAdmin(db: Store, c: Crypto, email: Option<string>, password: Option<string>) returns (r: Response)
    requires db.Valid()
    modifies db
    ensures db.Valid()
    ensures !(TruthyStr(email) && TruthyStr(password)) ==> r == Fail(400, "Please provide all fields") && unchanged(db)
    ensures TruthyStr(email) && TruthyStr(password) ==>
      var id := old(db.nextId);
      var admin := Admin(email.value, c.hash(password.value));
      && id !in old(db.admins)
      && db.State() == old(db.State()).(admins := old(db.admins)[id := admin])
      && db.nextId == id + 1
      && r == Ok(201, "Successfully Registered", AdminBody(id, admin))
  {
    if !TruthyStr(email) || !TruthyStr(password) {
      return Fail(400, "Please provide all fields");
    }
    var hashed := c.hash(password.value);
    var admin := Admin(email.value, hashed);
    var id := db.NewId();
    db.admins := db.admins[id := admin];
    r := Ok(201, "Successfully Registered", AdminBody(id, admin));
  }

  /** adminloginController: missing fields, then no admin with that email, then a
      password that does not match, all answered with 500; on success a token for
      the admin's id and the admin with its password blanked. Nothing is stored. */
  method AdminLogin(db: Store, c: Crypto, email: Option<string>, password: Option<string>) returns (r: Response)
    ensures !(TruthyStr(email) && TruthyStr(password)) ==> r == Fail(500, "Please provide email and password")
    ensures (TruthyStr(email) && TruthyStr(password) && AdminsWith(db.admins, email.value) == {}) ==>
      r == Fail(500, "admin not found")
    ensures (TruthyStr(email) && TruthyStr(password) && AdminsWith(db.admins, email.value) != {}) ==>
      exists id :: id in AdminsWith(db.admins, email.value) &&
        r == if c.compare(password.value, db.admins[id].password)
             then Ok(200, "Login successfully", LoginBody(c.sign(id), id, AdminView(db.admins[id].email)))
             else Fail(500, "Incorrect password")
    ensures r.Response? && r.status != 200 ==> r.status == 500
  {
    if !TruthyStr(email) || !TruthyStr(password) {
      return Fail(500, "Please provide email and password");
    }
    var found := AdminsWith(db.admins, email.value);
    if found == {} {
      return Fail(500, "admin not found");
    }
    var id :| id in found;
    var admin := db.admins[id];
    var matched := c.compare(password.value, admin.password);
    if !matched {
      return Fail(500, "Incorrect password");
    }
    var token := c.sign(id);
    r := Ok(200, "Login successfully", LoginBody(token, id, AdminView(admin.email)));
  }
}

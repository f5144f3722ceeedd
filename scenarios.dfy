/**
 * Requests in sequence against one store, proved from the controllers'
 * contracts alone.
 */
module Scenarios {
  import opened Wrappers
  import opened Model
  import opened Db
  import FoodController
  import AdminController

  /** A food that create stored is what get-single returns for the new id. */
  method CreateThenGetFood(db: Store, input: FoodFields) returns (created: Response, fetched: Response)
    requires db.Valid() && input.Complete()
    modifies db
    ensures created.Response? && created.status == 200 && created.body.FoodBody?
    ensures fetched == Ok(200, "Food fetched successfully", FoodBody(created.body.foodId, FoodController.NewFood(input)))
  {
    created := FoodController.CreateFood(db, input);
    fetched := FoodController.GetSingleFood(db, Some(created.body.foodId));
  }

  /** After a delete, get-single no longer finds the food, and the delete itself sent nothing. */
  method DeleteThenGetFood(db: Store, foodId: Id) returns (deleted: Response, fetched: Response)
    requires db.Valid() && foodId in db.foods
    modifies db
    ensures deleted == NoResponse
    ensures fetched == Fail(404, "No food found with this id")
  {
    deleted := FoodController.DeleteFood(db, Some(foodId));
    fetched := FoodController.GetSingleFood(db, Some(foodId));
  }

  /** A cart of 10.00 and 5.50 is paid 15.50, and its lines are kept as sent. */
  method PlaceTwoLineOrder(db: Store, buyer: Id) returns (r: Response)
    requires db.Valid()
    modifies db
    ensures r.Response? && r.status == 200 && r.body.OrderBody?
    ensures r.body.order.payment == 1550
    ensures r.body.order.foods == [CartItem(None, 1000), CartItem(None, 550)]
    ensures r.body.order.buyer == Some(buyer)
  {
    var cart := [CartItem(None, 1000), CartItem(None, 550)];
    assert cart[..1] == [CartItem(None, 1000)] && [CartItem(None, 1000)][..0] == [];
    r := FoodController.PlaceOrder(db, Some(cart), Some(buyer));
  }

  /** An admin who registered with an email no admin had can log in with the same
      password and receives the token for the new id. */
  method RegisterThenLogin(db: Store, c: Crypto, email: string, password: string) returns (registered: Response, login: Response)
    requires db.Valid() && Sound(c)
    requires email != "" && password != ""
    requires AdminController.AdminsWith(db.admins, email) == {}
    modifies db
    ensures registered.Response? && registered.status == 201 && registered.body.AdminBody?
    ensures login == Ok(200, "Login successfully",
      LoginBody(c.sign(registered.body.adminId), registered.body.adminId, AdminView(email)))
  {
    registered := AdminController.RegisterAdmin(db, c, Some(email), Some(password));
    assert AdminController.AdminsWith(db.admins, email) == {registered.body.adminId};
    login := AdminController.AdminLogin(db, c, Some(email), Some(password));
  }

  /** Registering the same email twice succeeds twice and leaves two admins with that email. */
  method RegisterTwice(db: Store, c: Crypto, email: string, password: string) returns (first: Response, second: Response)
    requires db.Valid() && email != "" && password != ""
    modifies db
    ensures first.Response? && first.status == 201 && first.body.AdminBody?
    ensures second.Response? && second.status == 201 && second.body.AdminBody?
    ensures first.body.adminId != second.body.adminId
    ensures {first.body.adminId, second.body.adminId} <= AdminController.AdminsWith(db.admins, email)
  {
    first := AdminController.RegisterAdmin(db, c, Some(email), Some(password));
    second := AdminController.RegisterAdmin(db, c, Some(email), Some(password));
  }
}
